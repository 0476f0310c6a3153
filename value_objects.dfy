/** The value objects of the order domain (src/domain/valueObjects.ts): each
    exposes one validating factory that either wraps its input unchanged or
    fails with a domain error. */
module ValueObjects {
  import opened Wrappers

  const NotPositiveMessage := "Value must be positive"
  const EmptyAddressMessage := "Empty address is not allowed"

  /** The numbers PositiveNumber's guard lets through: zero is refused. */
  type Positive = x: real | x > 0.0 witness 1.0

  datatype PositiveNumber = PositiveNumber(value: Positive)

  /** PositiveNumber.create. */
  function CreatePositiveNumber(value: real): (r: Result<PositiveNumber>)
    ensures r.Ok? <==> value > 0.0
    ensures r.Ok? ==> r.value.value == value
    ensures r.Err? ==> r.error == NotPositiveMessage
  {
    if value <= 0.0 then Err(NotPositiveMessage) else Ok(PositiveNumber(value))
  }

  /** The characters String.prototype.trim strips (ECMAScript, sections
      "White Space" and "Line Terminators"): tab, line feed, vertical tab,
      form feed, carriage return, space, no-break space, the other
      Space_Separator characters, line and paragraph separator, and the
      zero-width no-break space. */
  predicate IsTrimmable(c: char) {
    || c == '\U{0009}' || c == '\U{000A}' || c == '\U{000B}' || c == '\U{000C}'
    || c == '\U{000D}' || c == '\U{0020}' || c == '\U{00A0}' || c == '\U{1680}'
    || ('\U{2000}' <= c <= '\U{200A}')
    || c == '\U{2028}' || c == '\U{2029}' || c == '\U{202F}' || c == '\U{205F}'
    || c == '\U{3000}' || c == '\U{FEFF}'
  }

  /** The string without its leading trimmable characters. */
  function TrimStart(s: string): (r: string)
    ensures |r| <= |s| && r == s[|s| - |r|..]
    ensures forall i :: 0 <= i < |s| - |r| ==> IsTrimmable(s[i])
    ensures r != [] ==> !IsTrimmable(r[0])
  {
    if s != [] && IsTrimmable(s[0]) then TrimStart(s[1..]) else s
  }

  /** The string without its trailing trimmable characters. */
  function TrimEnd(s: string): (r: string)
    ensures |r| <= |s| && r == s[..|r|]
    ensures forall i :: |r| <= i < |s| ==> IsTrimmable(s[i])
    ensures r != [] ==> !IsTrimmable(r[|r| - 1])
  {
    if s != [] && IsTrimmable(s[|s| - 1]) then TrimEnd(s[..|s| - 1]) else s
  }

  /** String.prototype.trim. */
  function Trim(s: string): string {
    TrimEnd(TrimStart(s))
  }

  /** Address.create's refusal test: the text is falsy (empty) or trims to "". */
  predicate IsBlank(s: string) {
    s == "" || Trim(s) == ""
  }

  /** The texts an Address may hold. */
  type AddressText = s: string | !IsBlank(s) witness "-"

  datatype Address = Address(value: AddressText)

  /** Address.create: refuses a text made only of characters trim removes
      (the empty text included) and otherwise keeps the text as given,
      untrimmed. */
  function CreateAddress(value: string): (r: Result<Address>)
    ensures r.Err? <==> forall i :: 0 <= i < |value| ==> IsTrimmable(value[i])
    ensures r.Err? ==> r.error == EmptyAddressMessage
    ensures r.Ok? ==> r.value.value == value
  {
    if IsBlank(value) then Err(EmptyAddressMessage) else Ok(Address(value))
  }
}
