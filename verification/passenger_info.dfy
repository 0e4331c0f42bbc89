/** The passenger form of src/pages/PassengerInfo.tsx: the list of blank
    passengers the form starts from, the contact and per-passenger required
    field checks that fill the error record, the single-field and
    special-request edits, and the submit that stores the list in the
    session. Passenger ids come from `generateUniqueId` and are a parameter. */
module PassengerInfo {
  import opened Wrappers
  import opened Text
  import opened Types
  import opened AppContext

  // ---------------------------------------------------------------------
  // The initial list
  // ---------------------------------------------------------------------

  /** Passenger `i` of `n`: the first and the middle ones are adults, the
      last one of two or more is a child. */
  function InitialType(i: nat, n: nat): (t: PassengerType)
    requires i < n
    ensures t != Infant
    ensures t == Child <==> n >= 2 && i == n - 1
  {
    if i == 0 then Adult else if i < n - 1 then Adult else Child
  }

  /** A blank passenger: every text field empty, no seat, no requests. */
  function BlankPassenger(id: string, passengerType: PassengerType): Passenger {
    Passenger(id, passengerType, "", "", "", "", "", Some(""), Some(""), None, Some([]))
  }

  /** The list the effect seeds the form with when `n` passengers are searched for. */
  function InitialPassengers(n: nat, ids: seq<string>): (r: seq<Passenger>)
    requires |ids| == n
    ensures |r| == n
    ensures forall i :: 0 <= i < n ==> r[i].id == ids[i] && r[i].seat == None
    ensures forall i :: 0 <= i < n ==> r[i].specialRequests == Some([])
    ensures forall i :: 0 <= i < n ==> r[i].passengerType == InitialType(i, n)
    ensures forall i, f :: 0 <= i < n ==> Missing(r[i], f)
  {
    seq(n, i requires 0 <= i < n => BlankPassenger(ids[i], InitialType(i, n)))
  }

  // ---------------------------------------------------------------------
  // Required fields
  // ---------------------------------------------------------------------

  /** The seven text fields the form requires. */
  datatype TextField = Title | FirstName | LastName | DateOfBirth | Nationality | PassportNumber | PassportExpiry

  /** The order in which `validateForm` checks them. */
  const FieldOrder: seq<TextField> :=
    [Title, FirstName, LastName, DateOfBirth, Nationality, PassportNumber, PassportExpiry]

  /** A field's position in `FieldOrder`. */
  function Rank(f: TextField): (k: nat)
    ensures k < 7 && FieldOrder[k] == f
  {
    match f
    case Title => 0
    case FirstName => 1
    case LastName => 2
    case DateOfBirth => 3
    case Nationality => 4
    case PassportNumber => 5
    case PassportExpiry => 6
  }

  /** A field's value; the passport fields are optional properties. */
  function FieldOf(p: Passenger, f: TextField): Option<string> {
    match f
    case Title => Some(p.title)
    case FirstName => Some(p.firstName)
    case LastName => Some(p.lastName)
    case DateOfBirth => Some(p.dateOfBirth)
    case Nationality => Some(p.nationality)
    case PassportNumber => p.passportNumber
    case PassportExpiry => p.passportExpiry
  }

  /** `!passenger.field`: the field is absent or the empty string. */
  predicate Missing(p: Passenger, f: TextField) {
    FieldOf(p, f) == None || FieldOf(p, f) == Some("")
  }

  predicate Complete(p: Passenger) {
    forall f :: !Missing(p, f)
  }

  function Message(f: TextField): string {
    match f
    case Title => "Title is required"
    case FirstName => "First name is required"
    case LastName => "Last name is required"
    case DateOfBirth => "Date of birth is required"
    case Nationality => "Nationality is required"
    case PassportNumber => "Passport number is required"
    case PassportExpiry => "Passport expiry date is required"
  }

  /** No two fields share a message (their lengths already differ). */
  lemma MessageInjective(f: TextField, g: TextField)
    requires Message(f) == Message(g)
    ensures f == g
  {
    assert |Message(f)| == |Message(g)|;
  }

  /** The missing fields among the first `n` checked, in checking order. */
  function MissingUpTo(p: Passenger, n: nat): seq<TextField>
    requires n <= 7
  {
    if n == 0 then []
    else MissingUpTo(p, n - 1) + (if Missing(p, FieldOrder[n - 1]) then [FieldOrder[n - 1]] else [])
  }

  /** The messages pushed by the first `n` checks. */
  function MessagesUpTo(p: Passenger, n: nat): seq<string>
    requires n <= 7
  {
    if n == 0 then []
    else MessagesUpTo(p, n - 1) + (if Missing(p, FieldOrder[n - 1]) then [Message(FieldOrder[n - 1])] else [])
  }

  lemma {:induction false} MissingUpToFacts(p: Passenger, n: nat)
    requires n <= 7
    ensures forall f :: f in MissingUpTo(p, n) <==> Rank(f) < n && Missing(p, f)
    ensures forall i, j :: 0 <= i < j < |MissingUpTo(p, n)| ==>
              Rank(MissingUpTo(p, n)[i]) < Rank(MissingUpTo(p, n)[j])
    ensures |MissingUpTo(p, n)| <= n
  {
    if n > 0 {
      MissingUpToFacts(p, n - 1);
      assert Rank(FieldOrder[n - 1]) == n - 1;
      forall f ensures f in MissingUpTo(p, n) <==> Rank(f) < n && Missing(p, f) {
        assert f == FieldOrder[n - 1] <==> Rank(f) == n - 1;
      }
    }
  }

  lemma {:induction false} MessagesMatchFields(p: Passenger, n: nat)
    requires n <= 7
    ensures |MessagesUpTo(p, n)| == |MissingUpTo(p, n)|
    ensures forall k :: 0 <= k < |MessagesUpTo(p, n)| ==> MessagesUpTo(p, n)[k] == Message(MissingUpTo(p, n)[k])
  {
    if n > 0 {
      MessagesMatchFields(p, n - 1);
    }
  }

  /** The fields `validateForm` reports for one passenger: exactly the
      missing ones, each once, in the checking order. */
  function MissingFields(p: Passenger): (r: seq<TextField>)
    ensures forall f :: f in r <==> Missing(p, f)
    ensures |r| <= 7
    ensures r == [] <==> Complete(p)
  {
    MissingUpToFacts(p, 7);
    assert MissingUpTo(p, 7) != [] ==> MissingUpTo(p, 7)[0] in MissingUpTo(p, 7);
    MissingUpTo(p, 7)
  }

  /** The missing fields come in the checking order, each once. */
  lemma MissingFieldsInOrder(p: Passenger)
    ensures forall i, j :: 0 <= i < j < |MissingFields(p)| ==> Rank(MissingFields(p)[i]) < Rank(MissingFields(p)[j])
  {
    MissingUpToFacts(p, 7);
  }

  /** The messages `validateForm` pushes for one passenger: one per missing
      field, in the checking order, so a message is present exactly when its
      field is missing. */
  function PassengerMessages(p: Passenger): (r: seq<string>)
    ensures |r| <= 7
    ensures r == [] <==> Complete(p)
  {
    MessagesMatchFields(p, 7);
    assert MissingFields(p) == MissingUpTo(p, 7);
    MessagesUpTo(p, 7)
  }

  /** Message `k` is the message of the `k`-th missing field. */
  lemma MessagesFollowFields(p: Passenger)
    ensures |PassengerMessages(p)| == |MissingFields(p)|
    ensures forall k :: 0 <= k < |PassengerMessages(p)| ==> PassengerMessages(p)[k] == Message(MissingFields(p)[k])
  {
    MessagesMatchFields(p, 7);
  }

  lemma MessageMembership(p: Passenger)
    ensures forall f :: Message(f) in PassengerMessages(p) <==> Missing(p, f)
  {
    MessagesFollowFields(p);
    var fields, msgs := MissingFields(p), PassengerMessages(p);
    forall f ensures Message(f) in msgs <==> Missing(p, f) {
      if Message(f) in msgs {
        var k :| 0 <= k < |msgs| && msgs[k] == Message(f);
        MessageInjective(fields[k], f);
      }
      if Missing(p, f) {
        var k :| 0 <= k < |fields| && fields[k] == f;
        assert msgs[k] == Message(f);
      }
    }
  }

  /** The seven `if (!passenger.x) passengerErrors.push(...)` statements. */
  method CollectPassengerErrors(p: Passenger) returns (passengerErrors: seq<string>)
    ensures passengerErrors == PassengerMessages(p)
  {
    passengerErrors := [];
    if Missing(p, Title) { passengerErrors := passengerErrors + [Message(Title)]; }
    assert passengerErrors == MessagesUpTo(p, 1);
    if Missing(p, FirstName) { passengerErrors := passengerErrors + [Message(FirstName)]; }
    assert passengerErrors == MessagesUpTo(p, 2);
    if Missing(p, LastName) { passengerErrors := passengerErrors + [Message(LastName)]; }
    assert passengerErrors == MessagesUpTo(p, 3);
    if Missing(p, DateOfBirth) { passengerErrors := passengerErrors + [Message(DateOfBirth)]; }
    assert passengerErrors == MessagesUpTo(p, 4);
    if Missing(p, Nationality) { passengerErrors := passengerErrors + [Message(Nationality)]; }
    assert passengerErrors == MessagesUpTo(p, 5);
    if Missing(p, PassportNumber) { passengerErrors := passengerErrors + [Message(PassportNumber)]; }
    assert passengerErrors == MessagesUpTo(p, 6);
    if Missing(p, PassportExpiry) { passengerErrors := passengerErrors + [Message(PassportExpiry)]; }
  }

  /** A freshly seeded passenger fails all seven checks, in order. */
  lemma SeededPassengerFailsEveryCheck(n: nat, ids: seq<string>, i: nat)
    requires |ids| == n && i < n
    ensures MissingFields(InitialPassengers(n, ids)[i]) == FieldOrder
    ensures |PassengerMessages(InitialPassengers(n, ids)[i])| == 7
  {
    AllMissingUpTo(InitialPassengers(n, ids)[i], 7);
    MessagesFollowFields(InitialPassengers(n, ids)[i]);
  }

  lemma {:induction false} AllMissingUpTo(p: Passenger, n: nat)
    requires n <= 7 && forall f :: Missing(p, f)
    ensures MissingUpTo(p, n) == FieldOrder[..n]
  {
    if n > 0 {
      AllMissingUpTo(p, n - 1);
      assert FieldOrder[..n] == FieldOrder[..n - 1] + [FieldOrder[n - 1]];
    }
  }

  // ---------------------------------------------------------------------
  // Contact details
  // ---------------------------------------------------------------------

  /** `s[i..j]` holds no `\s` character. */
  predicate NonSpace(s: string, i: nat, j: nat)
    requires i <= j <= |s|
  {
    forall k :: i <= k < j ==> !IsWhitespace(s[k])
  }

  /** `s[a..e]` is a match of `\S+@\S+\.\S+` with its `@` at `p` and its `.` at `q`. */
  predicate MatchAt(s: string, a: nat, p: nat, q: nat, e: nat) {
    && a < p && p + 1 < q && q + 1 < e <= |s|
    && s[p] == '@' && s[q] == '.'
    && NonSpace(s, a, p) && NonSpace(s, p + 1, q) && NonSpace(s, q + 1, e)
  }

  /** `/\S+@\S+\.\S+/.test(s)`: the pattern is not anchored, so any
      substring may match. */
  predicate EmailPatternTest(s: string) {
    exists a: nat, p: nat, q: nat, e: nat :: a < p < q < e <= |s| && MatchAt(s, a, p, q, e)
  }

  /** The shortest match: one non-space before the `@`, non-spaces up to the
      `.`, and one non-space after it. */
  predicate ShortestMatch(s: string, p: nat, q: nat) {
    && 0 < p && p + 1 < q && q + 1 < |s|
    && s[p] == '@' && s[q] == '.'
    && !IsWhitespace(s[p - 1]) && NonSpace(s, p + 1, q) && !IsWhitespace(s[q + 1])
  }

  /** The pattern matches exactly when its shortest form occurs. */
  lemma EmailPatternShortest(s: string)
    ensures EmailPatternTest(s) <==> exists p: nat, q: nat :: ShortestMatch(s, p, q)
  {
    if EmailPatternTest(s) {
      var a: nat, p: nat, q: nat, e: nat :| a < p < q < e <= |s| && MatchAt(s, a, p, q, e);
      assert s[p - 1] == s[a..p][p - 1 - a];
      assert ShortestMatch(s, p, q);
    }
    if exists p: nat, q: nat :: ShortestMatch(s, p, q) {
      var p: nat, q: nat :| ShortestMatch(s, p, q);
      assert MatchAt(s, p - 1, p, q, q + 2);
    }
  }

  /** A plain address is accepted. */
  lemma EmailPatternAcceptsPlain()
    ensures EmailPatternTest("a@b.c")
  {
    var s := "a@b.c";
    assert NonSpace(s, 0, 1) && NonSpace(s, 2, 3) && NonSpace(s, 4, 5);
    assert MatchAt(s, 0, 1, 3, 5);
  }

  /** The pattern is not anchored: text with spaces around an address is
      accepted. */
  lemma EmailPatternAcceptsSurrounded()
    ensures EmailPatternTest("x y@b.c z")
  {
    var s := "x y@b.c z";
    assert NonSpace(s, 2, 3) && NonSpace(s, 4, 5) && NonSpace(s, 6, 7);
    assert MatchAt(s, 2, 3, 5, 7);
  }

  /** `\S` admits `@`, so a doubled `@` is accepted. */
  lemma EmailPatternAcceptsDoubleAt()
    ensures EmailPatternTest("a@@b.c")
  {
    var s := "a@@b.c";
    assert NonSpace(s, 0, 1) && NonSpace(s, 2, 4) && NonSpace(s, 5, 6);
    assert MatchAt(s, 0, 1, 4, 6);
  }

  /** A dot right after the `@`, or a space before it, is rejected. */
  lemma EmailPatternRejects()
    ensures !EmailPatternTest("a@.c")
    ensures !EmailPatternTest("a @b.c")
  {
    NoMatchExample("a@.c");
    NoMatchExample("a @b.c");
  }

  lemma NoMatchExample(s: string)
    requires s == "a@.c" || s == "a @b.c"
    ensures !EmailPatternTest(s)
  {
    EmailPatternShortest(s);
    forall p: nat, q: nat ensures !ShortestMatch(s, p, q) {
      if 0 < p && p + 1 < q && q + 1 < |s| && s[p] == '@' {
        assert p == (if s == "a@.c" then 1 else 2);
      }
    }
  }

  const EmailRequired: string := "Email is required"
  const EmailInvalid: string := "Please enter a valid email address"
  const PhoneRequired: string := "Phone number is required"

  /** The contact-email message, if any. */
  function EmailError(email: string): (r: Option<string>)
    ensures r == Some(EmailRequired) <==> email == ""
    ensures r == Some(EmailInvalid) <==> email != "" && !EmailPatternTest(email)
    ensures r.None? <==> EmailPatternTest(email)
  {
    if email == "" then Some(EmailRequired)
    else if !EmailPatternTest(email) then Some(EmailInvalid)
    else None
  }

  /** The keys of the error record: `contactEmail`, `contactPhone` and
      `passenger${index}`. */
  datatype ErrorKey = ContactEmail | ContactPhone | PassengerAt(index: nat)

  /** The property name each key stands for. */
  function KeyName(k: ErrorKey): string {
    match k
    case ContactEmail => "contactEmail"
    case ContactPhone => "contactPhone"
    case PassengerAt(i) => "passenger" + Decimal(i)
  }

  /** Different keys have different property names, so the record keyed by
      `ErrorKey` is the record keyed by name. */
  lemma KeyNamesDistinct(k1: ErrorKey, k2: ErrorKey)
    ensures KeyName(k1) == KeyName(k2) ==> k1 == k2
  {
    if k1.PassengerAt? && k2.PassengerAt? {
      if KeyName(k1) == KeyName(k2) {
        PrefixedDecimalInjective("passenger", k1.index, k2.index);
      }
    } else if k1.PassengerAt? || k2.PassengerAt? {
      assert KeyName(k1)[0] != KeyName(k2)[0];
    } else if k1 != k2 {
      assert KeyName(k1)[7] != KeyName(k2)[7];
    }
  }

  /** The contact entries of the error record: no format is checked on the
      phone number, only its presence. */
  function ContactErrors(email: string, phone: string): (r: map<ErrorKey, seq<string>>)
    ensures ContactEmail in r <==> EmailError(email).Some?
    ensures ContactEmail in r ==> r[ContactEmail] == [EmailError(email).value]
    ensures ContactPhone in r <==> phone == ""
    ensures ContactPhone in r ==> r[ContactPhone] == [PhoneRequired]
    ensures forall k :: k in r ==> !k.PassengerAt?
  {
    var withEmail: map<ErrorKey, seq<string>> :=
      if EmailError(email).Some? then map[ContactEmail := [EmailError(email).value]] else map[];
    if phone == "" then withEmail[ContactPhone := [PhoneRequired]] else withEmail
  }

  /** The contact checks at the head of `validateForm`, writing into a fresh record. */
  method CollectContactErrors(email: string, phone: string) returns (errors: map<ErrorKey, seq<string>>)
    ensures errors == ContactErrors(email, phone)
  {
    errors := map[];
    if email == "" {
      errors := errors[ContactEmail := [EmailRequired]];
    } else if !EmailPatternTest(email) {
      errors := errors[ContactEmail := [EmailInvalid]];
    }
    if phone == "" {
      errors := errors[ContactPhone := [PhoneRequired]];
    }
  }

  // ---------------------------------------------------------------------
  // The error record
  // ---------------------------------------------------------------------

  /** The messages of every passenger, in form order. */
  function AllPassengerMessages(ps: seq<Passenger>): (r: seq<seq<string>>)
    ensures |r| == |ps|
    ensures forall i :: 0 <= i < |ps| ==> r[i] == PassengerMessages(ps[i])
  {
    if ps == [] then [] else [PassengerMessages(ps[0])] + AllPassengerMessages(ps[1..])
  }

  /** The entries of the first `n` passengers, given each passenger's
      messages: one entry per passenger with a message. */
  function PassengerErrors(msgs: seq<seq<string>>, n: nat): (r: map<ErrorKey, seq<string>>)
    requires n <= |msgs|
    ensures forall i :: 0 <= i < n ==> (PassengerAt(i) in r <==> msgs[i] != [])
    ensures forall i :: 0 <= i < n && PassengerAt(i) in r ==> r[PassengerAt(i)] == msgs[i]
    ensures forall k :: k in r ==> k.PassengerAt? && k.index < n
  {
    if n == 0 then map[]
    else
      var earlier := PassengerErrors(msgs, n - 1);
      if msgs[n - 1] == [] then earlier else earlier[PassengerAt(n - 1) := msgs[n - 1]]
  }

  /** The record `validateForm` builds: contact entries, then one entry per
      incomplete passenger; it is empty exactly when everything is filled in. */
  function ValidationErrors(email: string, phone: string, ps: seq<Passenger>): (r: map<ErrorKey, seq<string>>)
    ensures ContactEmail in r <==> EmailError(email).Some?
    ensures ContactEmail in r ==> r[ContactEmail] == [EmailError(email).value]
    ensures ContactPhone in r <==> phone == ""
    ensures ContactPhone in r ==> r[ContactPhone] == [PhoneRequired]
    ensures forall i :: 0 <= i < |ps| ==> (PassengerAt(i) in r <==> !Complete(ps[i]))
    ensures forall i :: 0 <= i < |ps| && PassengerAt(i) in r ==> r[PassengerAt(i)] == PassengerMessages(ps[i])
    ensures forall k :: k in r && k.PassengerAt? ==> k.index < |ps|
    ensures r == map[] <==>
              EmailError(email).None? && phone != "" && forall i :: 0 <= i < |ps| ==> Complete(ps[i])
  {
    var msgs := AllPassengerMessages(ps);
    EmptyWithoutKeys(ContactErrors(email, phone) + PassengerErrors(msgs, |ps|));
    ContactErrors(email, phone) + PassengerErrors(msgs, |ps|)
  }

  lemma UpdateOfUnion<K, V>(a: map<K, V>, b: map<K, V>, k: K, v: V)
    ensures (a + b)[k := v] == a + b[k := v]
  {
  }

  lemma EmptyIffNoKeys<K, V>(m: map<K, V>)
    ensures |m| == 0 <==> m == map[]
  {
    if |m| != 0 {
      assert m.Keys != {};
    }
  }

  lemma EmptyWithoutKeys<K, V>(m: map<K, V>)
    ensures (forall k :: k !in m) ==> m == map[]
  {
  }

  /** The body of `validateForm`: a fresh record filled by the contact checks
      and then passenger by passenger. */
  method CollectErrors(email: string, phone: string, ps: seq<Passenger>)
    returns (errors: map<ErrorKey, seq<string>>)
    ensures errors == ValidationErrors(email, phone, ps)
  {
    errors := CollectContactErrors(email, phone);
    errors := AddPassengerErrors(errors, ps);
  }

  /** The `formData.forEach` loop: adds, to the record built so far, an
      entry for each passenger with a message. */
  method AddPassengerErrors(contact: map<ErrorKey, seq<string>>, ps: seq<Passenger>)
    returns (errors: map<ErrorKey, seq<string>>)
    ensures errors == contact + PassengerErrors(AllPassengerMessages(ps), |ps|)
  {
    errors := contact;
    var index := 0;
    while index < |ps|
      invariant 0 <= index <= |ps|
      invariant errors == contact + PassengerErrors(AllPassengerMessages(ps), index)
    {
      errors := AddPassengerEntry(contact, ps, index, errors);
      index := index + 1;
    }
  }

  /** The `forEach` callback for the passenger at `index`: its messages,
      stored under its key when there are any. */
  method AddPassengerEntry(contact: map<ErrorKey, seq<string>>, ps: seq<Passenger>, index: nat,
                           errors: map<ErrorKey, seq<string>>)
    returns (next: map<ErrorKey, seq<string>>)
    requires index < |ps| && errors == contact + PassengerErrors(AllPassengerMessages(ps), index)
    ensures next == contact + PassengerErrors(AllPassengerMessages(ps), index + 1)
  {
    var passengerErrors := CollectPassengerErrors(ps[index]);
    CollectStep(contact, AllPassengerMessages(ps), index, errors);
    next := errors;
    if |passengerErrors| > 0 {
      next := errors[PassengerAt(index) := passengerErrors];
    }
  }

  /** One iteration of the passenger loop extends the record by that
      passenger's entry, if any. */
  lemma CollectStep(contact: map<ErrorKey, seq<string>>, msgs: seq<seq<string>>, i: nat,
                    errors: map<ErrorKey, seq<string>>)
    requires i < |msgs| && errors == contact + PassengerErrors(msgs, i)
    ensures (if msgs[i] != [] then errors[PassengerAt(i) := msgs[i]] else errors) ==
              contact + PassengerErrors(msgs, i + 1)
  {
    if msgs[i] != [] {
      UpdateOfUnion(contact, PassengerErrors(msgs, i), PassengerAt(i), msgs[i]);
    }
  }

  // ---------------------------------------------------------------------
  // Edits
  // ---------------------------------------------------------------------

  /** What the inputs of one passenger card can change. */
  datatype FieldEdit = TextEdit(field: TextField, value: string) | TypeEdit(passengerType: PassengerType)

  /** `{ ...passenger, [field]: value }`. */
  function WithField(p: Passenger, edit: FieldEdit): (r: Passenger)
    ensures edit.TextEdit? ==> FieldOf(r, edit.field) == Some(edit.value)
    ensures edit.TextEdit? ==> forall g :: g != edit.field ==> FieldOf(r, g) == FieldOf(p, g)
    ensures edit.TextEdit? ==> r.passengerType == p.passengerType
    ensures edit.TypeEdit? ==> r.passengerType == edit.passengerType && forall g :: FieldOf(r, g) == FieldOf(p, g)
    ensures r.id == p.id && r.seat == p.seat && r.specialRequests == p.specialRequests
  {
    match edit
    case TypeEdit(t) => p.(passengerType := t)
    case TextEdit(f, v) =>
      match f
      case Title => p.(title := v)
      case FirstName => p.(firstName := v)
      case LastName => p.(lastName := v)
      case DateOfBirth => p.(dateOfBirth := v)
      case Nationality => p.(nationality := v)
      case PassportNumber => p.(passportNumber := Some(v))
      case PassportExpiry => p.(passportExpiry := Some(v))
  }

  /** Filling a field clears exactly its message and leaves the others. */
  lemma FillingFieldClearsItsMessage(p: Passenger, f: TextField, v: string, g: TextField)
    requires v != ""
    ensures Message(f) !in PassengerMessages(WithField(p, TextEdit(f, v)))
    ensures g != f ==> (Message(g) in PassengerMessages(WithField(p, TextEdit(f, v))) <==> Message(g) in PassengerMessages(p))
  {
    MessageMembership(p);
    MessageMembership(WithField(p, TextEdit(f, v)));
  }

  /** The requests after a checkbox change: checking appends the tag, even
      when it is already there; unchecking removes every copy of it. */
  function ToggleRequest(current: seq<string>, request: string, checked: bool): (r: seq<string>)
    ensures checked ==> |r| == |current| + 1 && r[..|current|] == current && r[|current|] == request
    ensures request in r <==> checked
    ensures !checked ==> request !in r && IsSubsequence(r, current)
    ensures !checked ==> forall x :: x != request ==> multiset(r)[x] == multiset(current)[x]
  {
    if checked then current + [request]
    else
      FilterFacts(current, x => x != request);
      Filter(current, x => x != request)
  }

  /** Unchecking undoes any number of checks of the same tag. */
  lemma {:induction false} UncheckUndoesCheck(current: seq<string>, request: string)
    ensures ToggleRequest(ToggleRequest(current, request, true), request, false) ==
            ToggleRequest(current, request, false)
  {
    var keep := x => x != request;
    FilterAppend(current, [request], keep);
    assert Filter([request], keep) == [];
  }

  /** `passenger.specialRequests?.includes(tag) || false`. */
  predicate IsChecked(p: Passenger, request: string) {
    p.specialRequests.Some? && request in p.specialRequests.value
  }

  /** The requests of a passenger after a checkbox change. */
  function WithRequest(p: Passenger, request: string, checked: bool): (r: Passenger)
    ensures IsChecked(r, request) == checked
    ensures r.specialRequests ==
              Some(ToggleRequest(if p.specialRequests.Some? then p.specialRequests.value else [], request, checked))
    ensures r == p.(specialRequests := r.specialRequests)
  {
    var current := if p.specialRequests.Some? then p.specialRequests.value else [];
    var updated := ToggleRequest(current, request, checked);
    p.(specialRequests := Some(updated))
  }

  // ---------------------------------------------------------------------
  // The page
  // ---------------------------------------------------------------------

  /** Where the page goes: away to the start without a chosen flight. */
  datatype PageView = RedirectHome | ShowForm

  function View(selectedFlight: Option<Flight>): (r: PageView)
    ensures r == RedirectHome <==> selectedFlight.None?
  {
    if selectedFlight.None? then RedirectHome else ShowForm
  }

  datatype SubmitOutcome = GoToPayment | StayWithErrors

  /** The page's `useState` cells and its handlers. */
  class PassengerInfoPage {
    var formData: seq<Passenger>
    var contactEmail: string
    var contactPhone: string
    var validationErrors: map<ErrorKey, seq<string>>

    constructor ()
      ensures formData == [] && contactEmail == "" && contactPhone == "" && validationErrors == map[]
    {
      formData := [];
      contactEmail := "";
      contactPhone := "";
      validationErrors := map[];
    }

    /** The effect: seeds the form once, when passengers were asked for and
        the form is still empty. */
    method SeedPassengers(requested: int, ids: seq<string>)
      requires requested > 0 ==> |ids| == requested
      modifies this`formData
      ensures if requested > 0 && old(formData) == [] then formData == InitialPassengers(requested, ids)
              else formData == old(formData)
    {
      if requested > 0 && |formData| == 0 {
        formData := InitialPassengers(requested, ids);
      }
    }

    method SetContactEmail(value: string)
      modifies this`contactEmail
      ensures contactEmail == value
    {
      contactEmail := value;
    }

    method SetContactPhone(value: string)
      modifies this`contactPhone
      ensures contactPhone == value
    {
      contactPhone := value;
    }

    /** `validateForm`: stores the record and reports whether it is empty. */
    method ValidateForm() returns (valid: bool)
      modifies this`validationErrors
      ensures validationErrors == ValidationErrors(contactEmail, contactPhone, formData)
      ensures valid <==> validationErrors == map[]
    {
      var errors := CollectErrors(contactEmail, contactPhone, formData);
      validationErrors := errors;
      EmptyIffNoKeys(errors);
      valid := |errors| == 0;
    }

    /** `handlePassengerChange`: one field of one passenger. */
    method HandlePassengerChange(index: nat, edit: FieldEdit)
      requires index < |formData|
      modifies this`formData
      ensures formData == old(formData)[index := WithField(old(formData)[index], edit)]
    {
      var updatedPassengers := formData;
      updatedPassengers := updatedPassengers[index := WithField(updatedPassengers[index], edit)];
      formData := updatedPassengers;
    }

    /** `handleSpecialRequest`: one checkbox of one passenger. */
    method HandleSpecialRequest(index: nat, request: string, checked: bool)
      requires index < |formData|
      modifies this`formData
      ensures formData == old(formData)[index := WithRequest(old(formData)[index], request, checked)]
      ensures IsChecked(formData[index], request) == checked
    {
      var updatedPassengers := formData;
      updatedPassengers := updatedPassengers[index := WithRequest(updatedPassengers[index], request, checked)];
      formData := updatedPassengers;
    }

    /** `handleSubmit`: on a valid form the list is stored in the session
        and the wizard moves on; otherwise the errors stay on the page. */
    method HandleSubmit(session: AppSession) returns (outcome: SubmitOutcome)
      modifies this`validationErrors, session`passengers
      ensures validationErrors == ValidationErrors(contactEmail, contactPhone, formData)
      ensures outcome == GoToPayment <==> validationErrors == map[]
      ensures outcome == GoToPayment ==> session.passengers == formData
      ensures outcome == StayWithErrors ==> session.passengers == old(session.passengers)
      ensures session.searchParams == old(session.searchParams)
      ensures session.selectedFlight == old(session.selectedFlight)
      ensures session.bookingDetails == old(session.bookingDetails)
    {
      var valid := ValidateForm();
      if valid {
        session.SetPassengers(Replace(formData));
        outcome := GoToPayment;
      } else {
        outcome := StayWithErrors;
      }
    }
  }
}
