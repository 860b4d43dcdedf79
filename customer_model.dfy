/**
 * The customer document (backend/models/Customer.js): the `trim` and
 * `lowercase` setters, the `required`, `minlength` and `match` validators, and
 * the e-mail and phone patterns as predicates over characters.
 */
module CustomerModel {
  import opened Wrappers
  import opened Text

  type CustomerId = nat

  datatype Customer = Customer(id: CustomerId, name: string, email: string, phone: string)

  /** The body of a create request; `None` is a missing or `null` field. */
  datatype CustomerInput = CustomerInput(name: Option<string>, email: Option<string>, phone: Option<string>)

  /** The stored form of an e-mail: trimmed, and no ASCII capital letters. */
  predicate IsNormalizedEmail(e: string) {
    IsTrimmed(e) && forall i :: 0 <= i < |e| ==> !('A' <= e[i] <= 'Z')
  }

  /** The setters of the e-mail path: `trim`, then `lowercase`. */
  function NormalizeEmail(e: string): (r: string)
    ensures |r| <= |e|
    ensures IsNormalizedEmail(r)
    ensures r == ToLower(Trim(e))
  {
    var t := Trim(e);
    LowerCharSpaceBothEnds(t);
    ToLower(t)
  }

  lemma LowerCharSpaceBothEnds(t: string)
    requires t == [] || (!IsJsSpace(t[0]) && !IsJsSpace(t[|t| - 1]))
    ensures var l := ToLower(t); l == [] || (!IsJsSpace(l[0]) && !IsJsSpace(l[|l| - 1]))
  {
    if t != [] {
      LowerCharSpace(t[0]);
      LowerCharSpace(t[|t| - 1]);
    }
  }

  /** Normalizing a stored (already normalized) e-mail changes nothing. */
  lemma NormalizeEmailIdempotent(e: string)
    ensures NormalizeEmail(NormalizeEmail(e)) == NormalizeEmail(e)
  {
    var t := Trim(e);
    TrimToLower(t);
    TrimIdempotent(e);
    ToLowerIdempotent(t);
  }

  /** The setters leave an already normalized e-mail as it is. */
  lemma NormalizedEmailFixed(e: string)
    requires IsNormalizedEmail(e)
    ensures NormalizeEmail(e) == e
  {
    TrimTrimmed(e);
    assert ToLower(e) == e;
  }

  /** `\w` of a JavaScript regular expression without the `u` flag. */
  predicate IsWordChar(c: char) {
    'a' <= c <= 'z' || 'A' <= c <= 'Z' || '0' <= c <= '9' || c == '_'
  }

  /** `[\.-]` */
  predicate IsSeparator(c: char) {
    c == '.' || c == '-'
  }

  /**
   * `(\w|[\.-]\w)*`: what may follow the first word character of a segment.
   * `\w+([\.-]?\w+)*` is exactly `\w(\w|[\.-]\w)*`.
   */
  predicate SegmentTail(t: string)
    decreases |t|
  {
    || t == []
    || (IsWordChar(t[0]) && SegmentTail(t[1..]))
    || (|t| >= 2 && IsSeparator(t[0]) && IsWordChar(t[1]) && SegmentTail(t[2..]))
  }

  /** `\w+([\.-]?\w+)*`: word characters, single dots or dashes between them. */
  predicate Segment(s: string) {
    |s| >= 1 && IsWordChar(s[0]) && SegmentTail(s[1..])
  }

  /** `\.\w{2,3}` followed by one group of the same shape or by the end: `(\.\w{2,3})+`. */
  predicate DomainGroups(t: string)
    decreases |t|
  {
    || (|t| >= 3 && t[0] == '.' && IsWordChar(t[1]) && IsWordChar(t[2]) && (|t| == 3 || DomainGroups(t[3..])))
    || (|t| >= 4 && t[0] == '.' && IsWordChar(t[1]) && IsWordChar(t[2]) && IsWordChar(t[3])
        && (|t| == 4 || DomainGroups(t[4..])))
  }

  /** `^\w+([\.-]?\w+)*@\w+([\.-]?\w+)*(\.\w{2,3})+$` */
  predicate EmailPattern(e: string) {
    exists at, dom :: 0 <= at < dom <= |e| && e[at] == '@' && Segment(e[..at]) && Segment(e[at + 1..dom]) && DomainGroups(e[dom..])
  }

  /** `e` ends in a dot and two or three word characters. */
  predicate EndsWithDomainSuffix(e: string) {
    || (|e| >= 3 && e[|e| - 3] == '.' && IsWordChar(e[|e| - 2]) && IsWordChar(e[|e| - 1]))
    || (|e| >= 4 && e[|e| - 4] == '.' && IsWordChar(e[|e| - 3]) && IsWordChar(e[|e| - 2]) && IsWordChar(e[|e| - 1]))
  }

  lemma {:induction false} SegmentTailShape(t: string)
    requires SegmentTail(t)
    ensures forall i :: 0 <= i < |t| ==> t[i] != '@'
    ensures t != [] ==> IsWordChar(t[|t| - 1])
  {
    if t == [] {
    } else if IsWordChar(t[0]) && SegmentTail(t[1..]) {
      SegmentTailShape(t[1..]);
      assert forall i :: 1 <= i < |t| ==> t[i] == t[1..][i - 1];
    } else {
      SegmentTailShape(t[2..]);
      assert forall i :: 2 <= i < |t| ==> t[i] == t[2..][i - 2];
    }
  }

  /** A segment has no `@` and starts and ends with a word character. */
  lemma SegmentShape(s: string)
    requires Segment(s)
    ensures forall i :: 0 <= i < |s| ==> s[i] != '@'
    ensures IsWordChar(s[0]) && IsWordChar(s[|s| - 1])
  {
    SegmentTailShape(s[1..]);
    assert forall i :: 1 <= i < |s| ==> s[i] == s[1..][i - 1];
  }

  lemma {:induction false} DomainGroupsShape(t: string)
    requires DomainGroups(t)
    ensures forall i :: 0 <= i < |t| ==> t[i] != '@'
    ensures EndsWithDomainSuffix(t)
  {
    if |t| >= 3 && t[0] == '.' && IsWordChar(t[1]) && IsWordChar(t[2]) && (|t| == 3 || DomainGroups(t[3..])) {
      if |t| > 3 {
        DomainGroupsShape(t[3..]);
        assert forall i :: 3 <= i < |t| ==> t[i] == t[3..][i - 3];
      }
    } else {
      if |t| > 4 {
        DomainGroupsShape(t[4..]);
        assert forall i :: 4 <= i < |t| ==> t[i] == t[4..][i - 4];
      }
    }
  }

  /**
   * An address the pattern accepts has exactly one `@`, with a word character
   * on each side of it, and ends in a dot and two or three word characters.
   */
  lemma EmailPatternShape(e: string) returns (at: nat)
    requires EmailPattern(e)
    ensures 0 < at < |e| - 1 && e[at] == '@'
    ensures forall i :: 0 <= i < |e| && e[i] == '@' ==> i == at
    ensures IsWordChar(e[at - 1]) && IsWordChar(e[at + 1])
    ensures EndsWithDomainSuffix(e)
  {
    var a, d :| 0 <= a < d <= |e| && e[a] == '@' && Segment(e[..a]) && Segment(e[a + 1..d]) && DomainGroups(e[d..]);
    at := a;
    SegmentShape(e[..a]);
    SegmentShape(e[a + 1..d]);
    DomainGroupsShape(e[d..]);
    assert d < |e|;
    assert forall i :: 0 <= i < a ==> e[..a][i] == e[i];
    assert forall i :: a < i < d ==> e[a + 1..d][i - a - 1] == e[i];
    assert forall i :: d <= i < |e| ==> e[d..][i - d] == e[i];
    assert forall i :: 0 <= i < |e| && i != a ==> e[i] != '@';
    assert e[..a][a - 1] == e[a - 1];
    assert e[a + 1..d][0] == e[a + 1];
    SuffixEnding(e, d);
  }

  lemma SuffixEnding(e: string, d: nat)
    requires d <= |e| && EndsWithDomainSuffix(e[d..])
    ensures EndsWithDomainSuffix(e)
  {
    var t := e[d..];
    assert |t| >= 3;
    assert t[|t| - 1] == e[|e| - 1] && t[|t| - 2] == e[|e| - 2] && t[|t| - 3] == e[|e| - 3];
    if |t| >= 4 {
      assert t[|t| - 4] == e[|e| - 4];
    }
  }

  /** An address the pattern accepts. */
  lemma EmailPatternAccepts()
    ensures EmailPattern("ab@cd.com")
  {
    var e := "ab@cd.com";
    assert e[..2] == "ab" && e[3..5] == "cd" && e[5..] == ".com";
    assert SegmentTail("b") by { assert SegmentTail(""); assert "b"[1..] == ""; }
    assert SegmentTail("d") by { assert SegmentTail(""); assert "d"[1..] == ""; }
    assert Segment("ab") by { assert "ab"[1..] == "b"; }
    assert Segment("cd") by { assert "cd"[1..] == "d"; }
    assert DomainGroups(".com") by { assert |".com"| == 4 && ".com"[0] == '.'; }
    assert 0 <= 2 < 5 <= |e| && e[2] == '@' && Segment(e[..2]) && Segment(e[3..5]) && DomainGroups(e[5..]);
  }

  /** Addresses the pattern refuses: no dotted suffix, and two `@`. */
  lemma EmailPatternRefuses()
    ensures !EmailPattern("ab@cd")
    ensures !EmailPattern("a@b@cd.com")
  {
    var short := "ab@cd";
    assert !EndsWithDomainSuffix(short) by {
      assert |short| == 5 && short[2] == '@' && short[1] == 'b';
    }
    if EmailPattern(short) {
      var _ := EmailPatternShape(short);
      assert false;
    }
    var twice := "a@b@cd.com";
    assert twice[1] == '@' && twice[3] == '@';
    if EmailPattern(twice) {
      var _ := EmailPatternShape(twice);
      assert false;
    }
  }

  /** `^[0-9]{10}$` */
  predicate PhonePattern(p: string) {
    |p| == 10 && AllDigits(p)
  }

  /**
   * A name is acceptable when it is at least two characters long once
   * trimmed; `minlength` counts JavaScript's UTF-16 code units.
   */
  predicate ValidName(n: string) {
    Utf16Length(Trim(n)) >= 2
  }

  /** One character outside the Basic Multilingual Plane is long enough; one ordinary letter is not. */
  lemma NameLengthInCodeUnits()
    ensures ValidName("\U{1F600}")
    ensures !ValidName("a")
  {
    var emoji, letter := "\U{1F600}", "a";
    assert !IsJsSpace(emoji[0]) && !IsJsSpace(letter[0]);
    TrimTrimmed(emoji);
    TrimTrimmed(letter);
    assert emoji[..0] == [] && letter[..0] == [];
    assert Utf16Length(emoji) == 2;
    assert Utf16Length(letter) == 1;
  }

  predicate ValidEmail(e: string) {
    NormalizeEmail(e) != "" && EmailPattern(NormalizeEmail(e))
  }

  predicate ValidPhone(p: string) {
    PhonePattern(Trim(p))
  }

  /** What the customer schema accepts. */
  predicate ValidInput(input: CustomerInput) {
    && input.name.Some? && ValidName(input.name.value)
    && input.email.Some? && ValidEmail(input.email.value)
    && input.phone.Some? && ValidPhone(input.phone.value)
  }

  /** A stored customer satisfies the schema: its fields are in stored form and valid. */
  predicate WellFormed(c: Customer) {
    && IsTrimmed(c.name) && Utf16Length(c.name) >= 2
    && IsNormalizedEmail(c.email) && c.email != "" && EmailPattern(c.email)
    && IsTrimmed(c.phone) && PhonePattern(c.phone)
  }

  /** The message of the name path: `required` first, then `minlength`. */
  function NameErrors(name: Option<string>): (errs: seq<string>)
    ensures errs == [] <==> name.Some? && ValidName(name.value)
    ensures errs == ["Customer name is required"] <==> name.None? || Trim(name.value) == ""
    ensures errs == ["Name must be at least 2 characters long"]
            <==> name.Some? && Trim(name.value) != "" && Utf16Length(Trim(name.value)) < 2
  {
    match name
    case None => ["Customer name is required"]
    case Some(n) =>
      if Trim(n) == "" then ["Customer name is required"]
      else if Utf16Length(Trim(n)) < 2 then ["Name must be at least 2 characters long"] else []
  }

  /** The message of the e-mail path: `required` first, then `match`, on the normalized value. */
  function EmailErrors(email: Option<string>): (errs: seq<string>)
    ensures errs == [] <==> email.Some? && ValidEmail(email.value)
    ensures errs == ["Email is required"] <==> email.None? || NormalizeEmail(email.value) == ""
    ensures errs == ["Please enter a valid email"]
            <==> email.Some? && NormalizeEmail(email.value) != "" && !EmailPattern(NormalizeEmail(email.value))
  {
    match email
    case None => ["Email is required"]
    case Some(e) =>
      if NormalizeEmail(e) == "" then ["Email is required"]
      else if !EmailPattern(NormalizeEmail(e)) then ["Please enter a valid email"] else []
  }

  /** The message of the phone path: `required` first, then `match`, on the trimmed value. */
  function PhoneErrors(phone: Option<string>): (errs: seq<string>)
    ensures errs == [] <==> phone.Some? && ValidPhone(phone.value)
    ensures errs == ["Phone number is required"] <==> phone.None? || Trim(phone.value) == ""
    ensures errs == ["Please enter a valid 10-digit phone number"]
            <==> phone.Some? && Trim(phone.value) != "" && !PhonePattern(Trim(phone.value))
  {
    match phone
    case None => ["Phone number is required"]
    case Some(p) =>
      if Trim(p) == "" then ["Phone number is required"]
      else if !PhonePattern(Trim(p)) then ["Please enter a valid 10-digit phone number"] else []
  }

  /**
   * The validation error of saving `input`: every failing path contributes its
   * message, all of them together, in schema order (name, email, phone).
   */
  function CustomerErrors(input: CustomerInput): (errs: seq<string>)
    ensures errs == [] <==> ValidInput(input)
    ensures input.name.None? ==> "Customer name is required" in errs
    ensures input.email.None? ==> "Email is required" in errs
    ensures input.phone.None? ==> "Phone number is required" in errs
    ensures errs == NameErrors(input.name) + EmailErrors(input.email) + PhoneErrors(input.phone)
  {
    var n, e, p := NameErrors(input.name), EmailErrors(input.email), PhoneErrors(input.phone);
    assert input.email.None? ==> (n + e + p)[|n|] == "Email is required";
    assert input.phone.None? ==> (n + e + p)[|n| + |e|] == "Phone number is required";
    n + e + p
  }

  /** The customer a valid input is stored as. */
  function ToCustomer(id: CustomerId, input: CustomerInput): (c: Customer)
    requires ValidInput(input)
    ensures WellFormed(c) && c.id == id
    ensures c.name == Trim(input.name.value)
    ensures c.email == NormalizeEmail(input.email.value)
    ensures c.phone == Trim(input.phone.value)
  {
    Customer(id, Trim(input.name.value), NormalizeEmail(input.email.value), Trim(input.phone.value))
  }
}
