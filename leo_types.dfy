/** The Leo literal codec of the Aleo helpers: formatting values as Leo
    `field`, `u64`, `u32`, `u8` and boolean literals, and reading them back. */
module LeoTypes {
  import opened JsValues
  import Decimal

  predicate EndsWith(s: string, suffix: string) {
    |suffix| <= |s| && s[|s| - |suffix|..] == suffix
  }

  /** `s.replace(/<suffix>$/, '')` for a literal suffix: the regular
      expression is anchored at the end, so at most one occurrence goes. */
  function StripSuffix(s: string, suffix: string): (r: string)
    ensures EndsWith(s, suffix) ==> r + suffix == s
    ensures !EndsWith(s, suffix) ==> r == s
  {
    if EndsWith(s, suffix) then s[..|s| - |suffix|] else s
  }

  /** `parseField`: drops one trailing `field`, if there is one. */
  function ParseField(value: string): (r: string)
    ensures EndsWith(value, "field") ==> ToField(r) == value
    ensures !EndsWith(value, "field") ==> r == value
  {
    StripSuffix(value, "field")
  }

  /** `parseU64`: the integer written before the `u64` suffix; a canonical
      literal is read as the integer `toU64` writes it from. */
  function ParseU64(value: string): (r: Option<int>)
    ensures EndsWith(value, "u64") && Decimal.CanonicalInt(value[..|value| - 3]) ==>
              r.Some? && Decimal.FromInt(r.value) == value[..|value| - 3]
    ensures !EndsWith(value, "u64") ==> r == Decimal.ParseInteger(value)
  {
    if EndsWith(value, "u64") && Decimal.CanonicalInt(value[..|value| - 3]) then
      Decimal.FromIntParseInteger(value[..|value| - 3]);
      Decimal.ParseInteger(StripSuffix(value, "u64"))
    else
      Decimal.ParseInteger(StripSuffix(value, "u64"))
  }

  /** `parseU32`: the integer written before the `u32` suffix. */
  function ParseU32(value: string): (r: Option<int>)
    ensures EndsWith(value, "u32") && Decimal.CanonicalInt(value[..|value| - 3]) ==>
              r.Some? && Decimal.FromInt(r.value) == value[..|value| - 3]
    ensures !EndsWith(value, "u32") ==> r == Decimal.ParseInteger(value)
  {
    if EndsWith(value, "u32") && Decimal.CanonicalInt(value[..|value| - 3]) then
      Decimal.FromIntParseInteger(value[..|value| - 3]);
      Decimal.ParseInteger(StripSuffix(value, "u32"))
    else
      Decimal.ParseInteger(StripSuffix(value, "u32"))
  }

  /** `parseU8`: the integer written before the `u8` suffix. */
  function ParseU8(value: string): (r: Option<int>)
    ensures EndsWith(value, "u8") && Decimal.CanonicalInt(value[..|value| - 2]) ==>
              r.Some? && Decimal.FromInt(r.value) == value[..|value| - 2]
    ensures !EndsWith(value, "u8") ==> r == Decimal.ParseInteger(value)
  {
    if EndsWith(value, "u8") && Decimal.CanonicalInt(value[..|value| - 2]) then
      Decimal.FromIntParseInteger(value[..|value| - 2]);
      Decimal.ParseInteger(StripSuffix(value, "u8"))
    else
      Decimal.ParseInteger(StripSuffix(value, "u8"))
  }

  /** `parseBool`: true only for the literal `toBool(true)` writes. */
  function ParseBool(value: string): (r: bool)
    ensures r ==> ToBool(r) == value
    ensures !r ==> value != ToBool(true)
  {
    value == "true"
  }

  /** `toField` for a string argument. */
  function ToField(value: string): (r: string)
    ensures EndsWith(r, "field") && |r| == |value| + 5 && r[..|value|] == value
  {
    value + "field"
  }

  /** `toField` for a bigint argument: its decimal text, then `field`. */
  function ToFieldInt(value: int): (r: string)
    ensures EndsWith(r, "field") && Decimal.CanonicalInt(r[..|r| - 5])
    ensures Decimal.ParseInteger(r[..|r| - 5]) == Some(value)
  {
    Decimal.ParseIntegerFromInt(value);
    ToField(Decimal.FromInt(value))
  }

  /** `toU64`: the canonical decimal text of the value, then `u64`. */
  function ToU64(value: int): (r: string)
    ensures EndsWith(r, "u64") && Decimal.CanonicalInt(r[..|r| - 3])
    ensures Decimal.ParseInteger(r[..|r| - 3]) == Some(value)
  {
    var d := Decimal.FromInt(value);
    Decimal.ParseIntegerFromInt(value);
    assert (d + "u64")[..|d|] == d;
    d + "u64"
  }

  /** `toU32`: the canonical decimal text of the value, then `u32`. */
  function ToU32(value: int): (r: string)
    ensures EndsWith(r, "u32") && Decimal.CanonicalInt(r[..|r| - 3])
    ensures Decimal.ParseInteger(r[..|r| - 3]) == Some(value)
  {
    var d := Decimal.FromInt(value);
    Decimal.ParseIntegerFromInt(value);
    assert (d + "u32")[..|d|] == d;
    d + "u32"
  }

  /** `toU8`: the canonical decimal text of the value, then `u8`. */
  function ToU8(value: int): (r: string)
    ensures EndsWith(r, "u8") && Decimal.CanonicalInt(r[..|r| - 2])
    ensures Decimal.ParseInteger(r[..|r| - 2]) == Some(value)
  {
    var d := Decimal.FromInt(value);
    Decimal.ParseIntegerFromInt(value);
    assert (d + "u8")[..|d|] == d;
    d + "u8"
  }

  function ToBool(value: bool): (r: string)
    ensures r == "true" <==> value
    ensures r == "true" || r == "false"
  {
    if value then "true" else "false"
  }

  lemma StripAppendedSuffix(s: string, suffix: string)
    ensures StripSuffix(s + suffix, suffix) == s
  {
    assert (s + suffix)[|s|..] == suffix;
    assert (s + suffix)[..|s|] == s;
  }

  /** `parseField(toField(s)) == s` for every string: `toField` appends one
      `field` and `parseField` strips exactly one. */
  lemma FieldRoundTrip(s: string)
    ensures ParseField(ToField(s)) == s
  {
    StripAppendedSuffix(s, "field");
  }

  /** A literal that does not end in `field` reads back unchanged. */
  lemma ParseFieldUnsuffixed(s: string)
    requires !EndsWith(s, "field")
    ensures ParseField(s) == s
  {
  }

  /** Formatting what `parseField` read restores the literal exactly when the
      literal ended in `field`. */
  lemma FieldRestored(s: string)
    ensures ToField(ParseField(s)) == s <==> EndsWith(s, "field")
  {
    if ToField(ParseField(s)) == s {
      assert s[|s| - 5..] == ToField(ParseField(s))[|ParseField(s)|..];
    }
  }

  /** A field written from a bigint reads back as that integer's decimal text. */
  lemma FieldIntRoundTrip(n: int)
    ensures ParseField(ToFieldInt(n)) == Decimal.FromInt(n)
    ensures Decimal.ParseInteger(ParseField(ToFieldInt(n))) == Some(n)
  {
    FieldRoundTrip(Decimal.FromInt(n));
    Decimal.ParseIntegerFromInt(n);
  }

  /** `parseU64(toU64(n)) == n` for every integer n. */
  lemma U64RoundTrip(n: int)
    ensures ParseU64(ToU64(n)) == Some(n)
  {
    StripAppendedSuffix(Decimal.FromInt(n), "u64");
    Decimal.ParseIntegerFromInt(n);
  }

  /** `parseU32(toU32(n)) == n` for every integer n. */
  lemma U32RoundTrip(n: int)
    ensures ParseU32(ToU32(n)) == Some(n)
  {
    StripAppendedSuffix(Decimal.FromInt(n), "u32");
    Decimal.ParseIntegerFromInt(n);
  }

  /** `parseU8(toU8(n)) == n` for every integer n. */
  lemma U8RoundTrip(n: int)
    ensures ParseU8(ToU8(n)) == Some(n)
  {
    StripAppendedSuffix(Decimal.FromInt(n), "u8");
    Decimal.ParseIntegerFromInt(n);
  }

  /** The integer formatters write the canonical decimal text of the value,
      then the type suffix, and nothing else. */
  lemma IntegerLiteralShape(n: int)
    ensures EndsWith(ToU64(n), "u64") && EndsWith(ToU32(n), "u32") && EndsWith(ToU8(n), "u8")
    ensures var t := ToU64(n); Decimal.CanonicalInt(t[..|t| - 3]) && Decimal.ParseInteger(t[..|t| - 3]) == Some(n)
    ensures var t := ToU32(n); Decimal.CanonicalInt(t[..|t| - 3]) && Decimal.ParseInteger(t[..|t| - 3]) == Some(n)
    ensures var t := ToU8(n); Decimal.CanonicalInt(t[..|t| - 2]) && Decimal.ParseInteger(t[..|t| - 2]) == Some(n)
  {
    var d := Decimal.FromInt(n);
    assert (d + "u64")[|d|..] == "u64" && (d + "u64")[..|d|] == d;
    assert (d + "u32")[|d|..] == "u32" && (d + "u32")[..|d|] == d;
    assert (d + "u8")[|d|..] == "u8" && (d + "u8")[..|d|] == d;
    Decimal.ParseIntegerFromInt(n);
  }

  /** A `u64` literal written the way `toU64` writes it is reproduced by
      formatting what `parseU64` read, so the codec is a bijection between
      integers and canonical `u64` literals. */
  lemma U64LiteralRestored(s: string)
    requires EndsWith(s, "u64") && Decimal.CanonicalInt(s[..|s| - 3])
    ensures ParseU64(s).Some? && ToU64(ParseU64(s).value) == s
  {
    Decimal.FromIntParseInteger(s[..|s| - 3]);
    assert s == s[..|s| - 3] + "u64";
  }

  /** `parseBool(toBool(b)) == b` for every boolean. */
  lemma BoolRoundTrip(b: bool)
    ensures ParseBool(ToBool(b)) == b
  {
  }

  /** `parseBool` accepts only the exact text `true`: formatting what it read
      restores the literal exactly for `true` and `false`, and spellings such
      as `True` or `1` read as false. */
  lemma ParseBoolExact(s: string)
    ensures ParseBool(s) <==> s == "true"
    ensures ToBool(ParseBool(s)) == s <==> s == "true" || s == "false"
    ensures !ParseBool("True") && !ParseBool("1") && !ParseBool("TRUE")
  {
  }
}
