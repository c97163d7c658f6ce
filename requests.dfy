/**
  The request bodies of the two create/update endpoints and the bean-validation
  constraints declared on them, written out as explicit checks. A field absent
  from the body is `None` (a Java null).
 */
module Requests {
  import opened Wrappers

  datatype CustomerRequest = CustomerRequest(name: Option<string>, email: Option<string>, phone: Option<string>)

  datatype OrderRequest = OrderRequest(description: Option<string>, amount: Option<int>, customerId: Option<int>)

  /** One violated constraint of one field. */
  datatype Violation =
    | NameBlank | NameSize
    | EmailBlank | EmailInvalid
    | PhoneBlank | PhoneInvalid
    | DescriptionNull | AmountNull | CustomerIdNull

  /** The name of the field the violated constraint is declared on. */
  function FieldOf(v: Violation): string
  {
    match v
    case NameBlank | NameSize => "name"
    case EmailBlank | EmailInvalid => "email"
    case PhoneBlank | PhoneInvalid => "phone"
    case DescriptionNull => "description"
    case AmountNull => "amount"
    case CustomerIdNull => "customerId"
  }

  /** The constraint's message: the one given on the annotation, or the library's default. */
  function MessageOf(v: Violation): string
  {
    match v
    case NameBlank => "Name is required!"
    case NameSize => "size must be between 2 and 50"
    case EmailBlank => "Email is required!"
    case EmailInvalid => "Email should be valid"
    case PhoneBlank => "Phone is required!"
    case PhoneInvalid => "Phone must be a valid number"
    case DescriptionNull | AmountNull | CustomerIdNull => "must not be null"
  }

  /** The "field:message" entry reported for a violation. */
  function Render(v: Violation): string
  {
    FieldOf(v) + ":" + MessageOf(v)
  }

  /** A field name never contains the separator. */
  lemma FieldHasNoColon(v: Violation)
    ensures forall i :: 0 <= i < |FieldOf(v)| ==> FieldOf(v)[i] != ':'
  {
  }

  /** Joining at a separator the left parts do not contain can be undone. */
  lemma SplitAtFirstColon(a: string, b: string, c: string, d: string)
    requires forall i :: 0 <= i < |a| ==> a[i] != ':'
    requires forall i :: 0 <= i < |c| ==> c[i] != ':'
    requires a + ":" + b == c + ":" + d
    ensures a == c && b == d
  {
    var x := a + ":" + b;
    assert x[|a|] == ':' && x[|c|] == ':';
    assert forall i :: 0 <= i < |a| ==> x[i] == a[i];
    assert forall i :: 0 <= i < |c| ==> x[i] == c[i];
    assert |a| == |c|;
    assert a == x[..|a|] && c == x[..|c|];
    assert b == x[|a| + 1..] && d == x[|c| + 1..];
  }


  /** A violation is determined by its field and its message. */
  lemma FieldAndMessageDetermine(v1: Violation, v2: Violation)
    ensures FieldOf(v1) == FieldOf(v2) && MessageOf(v1) == MessageOf(v2) ==> v1 == v2
  {
  }

  /** Different violations are reported as different entries. */
  lemma RenderInjective(v1: Violation, v2: Violation)
    ensures Render(v1) == Render(v2) ==> v1 == v2
  {
    if Render(v1) == Render(v2) {
      FieldHasNoColon(v1);
      FieldHasNoColon(v2);
      SplitAtFirstColon(FieldOf(v1), MessageOf(v1), FieldOf(v2), MessageOf(v2));
      FieldAndMessageDetermine(v1, v2);
    }
  }



  // ---------------------------------------------------------------------------
  // @NotBlank: after String.trim() at least one character is left.
  // trim() strips every leading and trailing character at or below U+0020.
  // ---------------------------------------------------------------------------

  predicate IsTrimmed(c: char) { c <= ' ' }

  function TrimStart(s: string): string
  {
    if |s| > 0 && IsTrimmed(s[0]) then TrimStart(s[1..]) else s
  }

  function TrimEnd(s: string): string
  {
    if |s| > 0 && IsTrimmed(s[|s| - 1]) then TrimEnd(s[..|s| - 1]) else s
  }

  function Trim(s: string): string
  {
    TrimEnd(TrimStart(s))
  }

  predicate NotBlank(s: Option<string>)
  {
    s.Some? && |Trim(s.value)| > 0
  }

  /** TrimStart drops a prefix of trimmed characters and stops at the first visible one. */
  lemma {:induction false} TrimStartShape(s: string)
    ensures var r := TrimStart(s);
      && |r| <= |s| && r == s[|s| - |r|..]
      && (forall i :: 0 <= i < |s| - |r| ==> IsTrimmed(s[i]))
      && (r != [] ==> !IsTrimmed(r[0]))
  {
    if |s| > 0 && IsTrimmed(s[0]) {
      TrimStartShape(s[1..]);
      var r := TrimStart(s[1..]);
      forall i | 0 <= i < |s| - |r| ensures IsTrimmed(s[i]) {
        if i > 0 { assert s[i] == s[1..][i - 1]; }
      }
    }
  }

  /** TrimEnd drops a suffix of trimmed characters and stops at the last visible one. */
  lemma {:induction false} TrimEndShape(s: string)
    ensures var r := TrimEnd(s);
      && |r| <= |s| && r == s[..|r|]
      && (forall i :: |r| <= i < |s| ==> IsTrimmed(s[i]))
      && (r != [] ==> !IsTrimmed(r[|r| - 1]))
  {
    if |s| > 0 && IsTrimmed(s[|s| - 1]) {
      TrimEndShape(s[..|s| - 1]);
      var r := TrimEnd(s[..|s| - 1]);
      forall i | |r| <= i < |s| ensures IsTrimmed(s[i]) {
        if i < |s| - 1 { assert s[i] == s[..|s| - 1][i]; }
      }
    }
  }

  /** A string is blank exactly when every one of its characters is at or below U+0020. */
  lemma NotBlankIffVisibleChar(s: string)
    ensures NotBlank(Some(s)) <==> exists i :: 0 <= i < |s| && !IsTrimmed(s[i])
  {
    TrimStartShape(s);
    var t := TrimStart(s);
    TrimEndShape(t);
    if |Trim(s)| > 0 {
      assert s[|s| - |t|] == t[0];
    } else {
      assert t == [];
    }
  }

  // ---------------------------------------------------------------------------
  // @Size(min = 2, max = 50): the length is String.length(), in UTF-16 code
  // units, so a character outside the Basic Multilingual Plane counts twice.
  // ---------------------------------------------------------------------------

  function Utf16Length(s: string): (n: nat)
    ensures |s| <= n <= 2 * |s|
    ensures n == |s| <==> forall i :: 0 <= i < |s| ==> s[i] as int <= 0xFFFF
  {
    if s == [] then 0
    else (if s[0] as int > 0xFFFF then 2 else 1) + Utf16Length(s[1..])
  }

  predicate SizeBetween(s: Option<string>, min: nat, max: nat)
  {
    s.None? || min <= Utf16Length(s.value) <= max
  }

  // ---------------------------------------------------------------------------
  // @Email: the syntax check of the validation library is not part of this
  // model; it is the parameter `isEmail`. A null value passes.
  // ---------------------------------------------------------------------------

  predicate EmailWellFormed(s: Option<string>, isEmail: string -> bool)
  {
    s.None? || isEmail(s.value)
  }

  // ---------------------------------------------------------------------------
  // @Pattern(regexp = "\+?[0-9\- ]{7,15}"), matched against the whole string.
  // A null value passes.
  // ---------------------------------------------------------------------------

  predicate IsPhoneChar(c: char) { '0' <= c <= '9' || c == '-' || c == ' ' }

  /** `[0-9\- ]{7,15}` */
  predicate PhoneDigits(s: string)
  {
    7 <= |s| <= 15 && forall i :: 0 <= i < |s| ==> IsPhoneChar(s[i])
  }

  /** The two ways `\+?` can match: consuming a leading '+' or not. */
  predicate PhonePattern(s: string)
  {
    (|s| > 0 && s[0] == '+' && PhoneDigits(s[1..])) || PhoneDigits(s)
  }

  /**
    What the pattern admits, stated on the whole string: 7 to 15 phone characters,
    or a '+' followed by 7 to 15 of them (16 characters in all); a '+' anywhere
    but first is refused.
   */
  lemma PhonePatternShape(s: string)
    ensures PhonePattern(s) ==> 7 <= |s| <= 16
    ensures PhonePattern(s) ==> forall i :: 0 < i < |s| ==> s[i] != '+'
    ensures PhonePattern(s) <==>
      if |s| > 0 && s[0] == '+' then 8 <= |s| <= 16 && forall i :: 1 <= i < |s| ==> IsPhoneChar(s[i])
      else 7 <= |s| <= 15 && forall i :: 0 <= i < |s| ==> IsPhoneChar(s[i])
  {
    if |s| > 0 && s[0] == '+' {
      assert !IsPhoneChar(s[0]);
      assert forall i :: 1 <= i < |s| ==> s[i] == s[1..][i - 1];
    }
  }

  predicate PhoneMatches(s: Option<string>)
  {
    s.None? || PhonePattern(s.value)
  }

  // ---------------------------------------------------------------------------
  // The customer request: every constraint of every field is checked and every
  // violation is reported.
  // ---------------------------------------------------------------------------

  /** All constraints declared on the customer request hold. */
  predicate CustomerRequestValid(req: CustomerRequest, isEmail: string -> bool)
  {
    && NotBlank(req.name) && SizeBetween(req.name, 2, 50)
    && NotBlank(req.email) && EmailWellFormed(req.email, isEmail)
    && NotBlank(req.phone) && PhoneMatches(req.phone)
  }

  /** Whether `v` is a constraint the customer request breaks. */
  predicate CustomerViolates(req: CustomerRequest, isEmail: string -> bool, v: Violation)
  {
    match v
    case NameBlank => !NotBlank(req.name)
    case NameSize => !SizeBetween(req.name, 2, 50)
    case EmailBlank => !NotBlank(req.email)
    case EmailInvalid => !EmailWellFormed(req.email, isEmail)
    case PhoneBlank => !NotBlank(req.phone)
    case PhoneInvalid => !PhoneMatches(req.phone)
    case DescriptionNull | AmountNull | CustomerIdNull => false
  }

  /** Whether `v` is a constraint the order request breaks. */
  predicate OrderViolates(req: OrderRequest, v: Violation)
  {
    match v
    case DescriptionNull => req.description.None?
    case AmountNull => req.amount.None?
    case CustomerIdNull => req.customerId.None?
    case _ => false
  }

  function Check(ok: bool, v: Violation): set<Violation>
  {
    if ok then {} else {v}
  }

  /**
    Validation of a customer request: every declared constraint is checked and
    every broken one is reported, not only the first.
   */
  function ValidateCustomer(req: CustomerRequest, isEmail: string -> bool): (errs: set<Violation>)
    ensures forall v :: v in errs <==> CustomerViolates(req, isEmail, v)
    ensures errs == {} <==> CustomerRequestValid(req, isEmail)
  {
    Check(NotBlank(req.name), NameBlank)
    + Check(SizeBetween(req.name, 2, 50), NameSize)
    + Check(NotBlank(req.email), EmailBlank)
    + Check(EmailWellFormed(req.email, isEmail), EmailInvalid)
    + Check(NotBlank(req.phone), PhoneBlank)
    + Check(PhoneMatches(req.phone), PhoneInvalid)
  }

  // ---------------------------------------------------------------------------
  // The order request: only @NotNull on each of its three fields.
  // ---------------------------------------------------------------------------

  function ValidateOrder(req: OrderRequest): (errs: set<Violation>)
    ensures forall v :: v in errs <==> OrderViolates(req, v)
    ensures errs == {} <==> req.description.Some? && req.amount.Some? && req.customerId.Some?
  {
    Check(req.description.Some?, DescriptionNull)
    + Check(req.amount.Some?, AmountNull)
    + Check(req.customerId.Some?, CustomerIdNull)
  }

  /** Nothing beyond presence is checked: an empty description and any amount, zero or negative, pass. */
  lemma OrderRequestAcceptsAnyPresentValues(description: string, amount: int, customerId: int)
    ensures ValidateOrder(OrderRequest(Some(description), Some(amount), Some(customerId))) == {}
  {
  }
}
