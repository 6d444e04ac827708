/** The OpenAL extension loader: resolving C type names from the headers to
    ctypes types, classifying `#define` values, collecting the `AL_API`
    procedure records, and building the namespace of constants, procedures
    and the value-to-name enum table. The regular expressions themselves are
    not modelled: each header line arrives with what they captured. */
module OpenAlExt {
  import opened Wrappers
  import opened Text

  /** The ctypes types the loader can produce. `Ptr(t)` is the ctypes pointer type to `t`. */
  datatype CType =
    | CInt64 | CBool | CChar | CByte | CUByte | CInt16 | CUInt16
    | CInt32 | CUInt32 | CFloat | CDouble | CVoidP
    | Ptr(target: CType)

  /** The `types` table of OpenAL scalar type names. */
  function TypeTable(): map<string, CType>
  {
    map[
      "ALint64SOFT" := CInt64, "ALboolean" := CBool, "ALchar" := CChar, "ALbyte" := CByte,
      "ALubyte" := CUByte, "ALshort" := CInt16, "ALushort" := CUInt16, "ALint" := CInt32,
      "ALuint" := CUInt32, "ALsizei" := CInt32, "ALenum" := CInt32, "ALfloat" := CFloat,
      "ALdouble" := CDouble]
  }

  /** The ctypes pointer type: a pointer to `None` (void) is `c_void_p`. */
  function PointerTo(t: Option<CType>): (p: CType)
    ensures t.None? ==> p == CVoidP
    ensures t.Some? ==> p == Ptr(t.value) && p != CVoidP
  {
    if t.None? then CVoidP else Ptr(t.value)
  }

  /** `s[-1]` on an empty string (IndexError) and a name missing from the
      table (KeyError). */
  datatype TypeError = EmptyType | UnknownType(name: string)

  /** `get_real_type(type_string)`. `Success(None)` is Python's `None`, the
      void type. The name is stripped and then resolved by `Resolve`. */
  function RealType(typeString: string): (r: Result<Option<CType>, TypeError>)
    decreases 2 * |typeString| + 1
  {
    Resolve(Strip(typeString))
  }

  /** The rules of `get_real_type`, tried in order on the stripped name `s`:
      anything mentioning `LP` or exactly `void *` is `c_void_p`; `void` and
      `ALvoid` are `None`; a `const ` prefix is dropped; a trailing `*` is a
      pointer to the rest; anything else is looked up in the table. The
      recursive calls strip again, as the source's recursive calls do. */
  function Resolve(s: string): (r: Result<Option<CType>, TypeError>)
    decreases 2 * |s|
  {
    if Contains(s, "LP") || s == "void *" then Success(Some(CVoidP))
    else if s == "void" || s == "ALvoid" then Success(None)
    else if StartsWith(s, "const ") then RealType(s[6..])
    else if s == [] then Failure(EmptyType)
    else if s[|s| - 1] == '*' then
      var inner := RealType(s[..|s| - 1]);
      if inner.Failure? then Failure(inner.error) else Success(Some(PointerTo(inner.value)))
    else if s in TypeTable() then Success(Some(TypeTable()[s]))
    else Failure(UnknownType(s))
  }

  /** The first rules, which win over everything after them: `LP` or
      `void *` anywhere in the stripped name gives `c_void_p` (so `const`
      and `*` are not looked at), `void` and `ALvoid` give `None`, and an
      all-blank name raises. */
  lemma RealTypeRules(typeString: string)
    ensures var s := Strip(typeString);
            (Contains(s, "LP") || s == "void *") ==> RealType(typeString) == Success(Some(CVoidP))
    ensures var s := Strip(typeString);
            !Contains(s, "LP") && (s == "void" || s == "ALvoid") ==> RealType(typeString) == Success(None)
    ensures Strip(typeString) == [] ==> RealType(typeString) == Failure(EmptyType)
  {
    var s := Strip(typeString);
    assert RealType(typeString) == Resolve(s);
    if s == [] {
      assert !Contains(s, "LP");
    }
  }

  /** `n` stars. */
  function Stars(n: nat): (s: string)
    ensures |s| == n && forall i :: 0 <= i < n ==> s[i] == '*'
  {
    Repeat('*', n)
  }

  /** The pointer type taken `n` times. */
  function PointerN(t: CType, n: nat): CType
  {
    if n == 0 then t else Ptr(PointerN(t, n - 1))
  }

  /** A string without the letter `P` cannot mention `LP`. */
  lemma NoLP(s: string)
    requires 'P' !in s
    ensures !Contains(s, "LP")
  {
    forall i | 0 <= i && i + 2 <= |s|
      ensures !OccursAt(s, "LP", i)
    {
      assert s[i..i + 2][1] == s[i + 1];
      assert s[i + 1] in s;
    }
    ContainsOccurs(s, "LP");
  }

  /** None of the table's names mentions `LP`, and none is a void name. */
  lemma TableNames(k: string)
    requires k in TypeTable()
    ensures 'P' !in k && |k| >= 5 && k[..2] == "AL" && k != "ALvoid"
    ensures 'a' <= k[|k| - 1] <= 'z' || 'A' <= k[|k| - 1] <= 'Z'
  {}

  /** `get_real_type` on a trimmed string that none of the first three
      rules catches: the pointer rule, else the table. */
  lemma PlainRealType(s: string)
    requires s != [] && !IsSpace(s[0]) && !IsSpace(s[|s| - 1])
    requires !Contains(s, "LP") && s != "void *" && s != "void" && s != "ALvoid" && !StartsWith(s, "const ")
    ensures s[|s| - 1] == '*' && RealType(s[..|s| - 1]).Failure? ==>
              RealType(s) == Failure(RealType(s[..|s| - 1]).error)
    ensures s[|s| - 1] == '*' && RealType(s[..|s| - 1]).Success? ==>
              RealType(s) == Success(Some(PointerTo(RealType(s[..|s| - 1]).value)))
    ensures s[|s| - 1] != '*' && s in TypeTable() ==> RealType(s) == Success(Some(TypeTable()[s]))
  {
    TrimmedResolves(s);
    if s[|s| - 1] == '*' {
      PointerRule(s);
    } else if s in TypeTable() {
      TableRule(s);
    }
  }

  /** The pointer rule, on a name the first three rules do not catch. */
  lemma PointerRule(s: string)
    requires s != [] && s[|s| - 1] == '*'
    requires !Contains(s, "LP") && s != "void *" && s != "void" && s != "ALvoid" && !StartsWith(s, "const ")
    ensures RealType(s[..|s| - 1]).Failure? ==> Resolve(s) == Failure(RealType(s[..|s| - 1]).error)
    ensures RealType(s[..|s| - 1]).Success? ==> Resolve(s) == Success(Some(PointerTo(RealType(s[..|s| - 1]).value)))
  {}

  /** The table lookup, on a name no earlier rule catches. */
  lemma TableRule(s: string)
    requires s != [] && s[|s| - 1] != '*' && s in TypeTable()
    requires !Contains(s, "LP") && s != "void *" && s != "void" && s != "ALvoid" && !StartsWith(s, "const ")
    ensures Resolve(s) == Success(Some(TypeTable()[s]))
  {}

  /** Every table name followed by `n` stars resolves to the table's type
      under `n` pointers: the scalar lookup and the pointer rule agree with
      the table. */
  lemma DeclaredPointer(k: string, n: nat)
    requires k in TypeTable()
    ensures RealType(k + Stars(n)) == Success(Some(PointerN(TypeTable()[k], n)))
  {
    TableNames(k);
    assert k[0] == 'A' by { assert k[..2][0] == k[0]; }
    assert k != "void *" && k != "void" && !StartsWith(k, "const ") by {
      assert "void *"[0] == 'v' && "void"[0] == 'v' && "const "[0] == 'c';
    }
    NoLP(k);
    PlainRealType(k);
    PointerChain(k, TypeTable()[k], n);
  }

  /** The induction behind `DeclaredPointer`, for any plain name that
      resolves to `t`. */
  lemma PointerChain(k: string, t: CType, n: nat)
    requires |k| >= 1 && k[0] == 'A' && 'P' !in k && k[|k| - 1] != '*' && !IsSpace(k[|k| - 1])
    requires RealType(k) == Success(Some(t))
    ensures RealType(k + Stars(n)) == Success(Some(PointerN(t, n)))
  {
    forall j | 0 < j <= n
      ensures StarAddsPointer(RealType, k, j)
    {
      ChainStep(k, j);
    }
    ChainBy(RealType, k, t, n);
  }

  /** Under `f`, the name `k` with `j` stars is a pointer to what `k` with
      `j - 1` stars is, whenever the latter is a type. */
  predicate StarAddsPointer(f: string -> Result<Option<CType>, TypeError>, k: string, j: nat)
    requires j > 0
  {
    f(k + Stars(j - 1)).Success? && f(k + Stars(j - 1)).value.Some? ==>
      f(k + Stars(j)) == Success(Some(Ptr(f(k + Stars(j - 1)).value.value)))
  }

  /** The induction over the number of stars, for any resolution `f` in
      which each star adds a pointer. */
  lemma {:induction false} ChainBy(f: string -> Result<Option<CType>, TypeError>, k: string, t: CType, n: nat)
    requires f(k) == Success(Some(t))
    requires forall j :: 0 < j <= n ==> StarAddsPointer(f, k, j)
    ensures f(k + Stars(n)) == Success(Some(PointerN(t, n)))
  {
    if n > 0 {
      ChainBy(f, k, t, n - 1);
      assert StarAddsPointer(f, k, n);
    } else {
      NoStars(k);
    }
  }

  lemma NoStars(k: string)
    ensures k + Stars(0) == k
  {
    assert k + Stars(0) == k;
  }

  /** One more star adds one more pointer. */
  lemma ChainStep(k: string, n: nat)
    requires |k| >= 1 && k[0] == 'A' && 'P' !in k && n > 0
    ensures StarAddsPointer(RealType, k, n)
  {
    var s := k + Stars(n);
    if RealType(k + Stars(n - 1)).Success? && RealType(k + Stars(n - 1)).value.Some? {
      StarredIsPlain(k, n, s);
      DropLastStar(k, n, s);
      PointerStep(s, k + Stars(n - 1), RealType(k + Stars(n - 1)).value.value);
    }
  }

  /** The pointer rule on a plain name whose text before the `*` resolves
      to `t`. */
  lemma PointerStep(s: string, p: string, t: CType)
    requires s != [] && !IsSpace(s[0]) && !IsSpace(s[|s| - 1]) && s[|s| - 1] == '*'
    requires !Contains(s, "LP") && s != "void *" && s != "void" && s != "ALvoid" && !StartsWith(s, "const ")
    requires p == s[..|s| - 1] && RealType(p) == Success(Some(t))
    ensures RealType(s) == Success(Some(Ptr(t)))
  {
    TrimmedResolves(s);
    PointerToType(s, t);
  }

  /** The pointer rule when the rest of the name is a type. */
  lemma PointerToType(s: string, t: CType)
    requires s != [] && s[|s| - 1] == '*'
    requires !Contains(s, "LP") && s != "void *" && s != "void" && s != "ALvoid" && !StartsWith(s, "const ")
    requires RealType(s[..|s| - 1]) == Success(Some(t))
    ensures Resolve(s) == Success(Some(Ptr(t)))
  {
    PointerRule(s);
    LiftPointer(RealType(s[..|s| - 1]), Resolve(s), t);
  }

  lemma LiftPointer(inner: Result<Option<CType>, TypeError>, outer: Result<Option<CType>, TypeError>, t: CType)
    requires inner == Success(Some(t))
    requires inner.Success? ==> outer == Success(Some(PointerTo(inner.value)))
    ensures outer == Success(Some(Ptr(t)))
  {}

  lemma DropLastStar(k: string, n: nat, s: string)
    requires n > 0 && s == k + Stars(n)
    ensures s[..|s| - 1] == k + Stars(n - 1)
  {
    assert s[..|s| - 1] == k + Stars(n - 1);
  }

  /** A plain name followed by stars escapes the first three rules. */
  lemma StarredIsPlain(k: string, n: nat, s: string)
    requires |k| >= 1 && k[0] == 'A' && 'P' !in k && n > 0 && s == k + Stars(n)
    ensures s != [] && !IsSpace(s[0]) && !IsSpace(s[|s| - 1]) && s[|s| - 1] == '*'
    ensures !Contains(s, "LP") && s != "void *" && s != "void" && s != "ALvoid" && !StartsWith(s, "const ")
  {
    assert s[0] == 'A' && s[|s| - 1] == '*';
    assert 'P' !in s by {
      forall i | 0 <= i < |s|
        ensures s[i] != 'P'
      {
        if i < |k| {
          assert s[i] == k[i];
        }
      }
    }
    NoLP(s);
    NotKeyword(s);
  }

  /** A name starting with `A` and ending in `*` is none of the keywords. */
  lemma NotKeyword(s: string)
    requires |s| >= 1 && s[0] == 'A' && s[|s| - 1] == '*'
    ensures s != "void *" && s != "void" && s != "ALvoid" && !StartsWith(s, "const ")
  {
    assert "void *"[0] == 'v' && "void"[0] == 'v' && "const "[0] == 'c' && "ALvoid"[5] == 'd';
  }

  /** A `const ` prefix in front of a trimmed type name does not change what
      it resolves to. */
  lemma ConstIsDropped(s: string)
    requires s != [] && !IsSpace(s[0]) && !IsSpace(s[|s| - 1])
    ensures RealType("const " + s) == RealType(s)
  {
    if Contains(s, "LP") {
      ConstBeforeLP(s);
    } else {
      ConstBeforePlain(s);
    }
  }

  /** `const ` in front of a name mentioning `LP`: both are `c_void_p`. */
  lemma ConstBeforeLP(s: string)
    requires s != [] && !IsSpace(s[0]) && !IsSpace(s[|s| - 1]) && Contains(s, "LP")
    ensures RealType("const " + s) == RealType(s) == Success(Some(CVoidP))
  {
    var c := "const " + s;
    ConstPrefixed(s, c);
    ContainsAfterPrefix("const ", s, "LP");
    MentionsLP(c);
    MentionsLP(s);
  }

  /** A trimmed name mentioning `LP` is `c_void_p`. */
  lemma MentionsLP(s: string)
    requires s != [] && !IsSpace(s[0]) && !IsSpace(s[|s| - 1]) && Contains(s, "LP")
    ensures RealType(s) == Success(Some(CVoidP))
  {
    TrimmedResolves(s);
    VoidPointerRule(s);
  }

  /** `const ` in front of a name without `LP`: the `const` rule applies. */
  lemma ConstBeforePlain(s: string)
    requires s != [] && !IsSpace(s[0]) && !IsSpace(s[|s| - 1]) && !Contains(s, "LP")
    ensures RealType("const " + s) == RealType(s)
  {
    var c := "const " + s;
    ConstPrefixed(s, c);
    ConstHasNoL();
    PrefixWithoutHead("const ", s, "LP");
    ConstResolves(c, s);
  }

  lemma ConstHasNoL()
    ensures "LP"[0] !in "const "
  {
    assert "const " == ['c', 'o', 'n', 's', 't', ' '];
  }

  /** A trimmed name that the `const ` rule catches resolves as its rest. */
  lemma ConstResolves(c: string, s: string)
    requires c != [] && !IsSpace(c[0]) && !IsSpace(c[|c| - 1])
    requires !Contains(c, "LP") && c != "void *" && c != "void" && c != "ALvoid"
    requires StartsWith(c, "const ") && c[6..] == s
    ensures RealType(c) == RealType(s)
  {
    TrimmedResolves(c);
    ConstRule(c);
  }

  /** `const ` in front of a trimmed name: trimmed, none of the keywords,
      and the name again after the six characters of the prefix. */
  lemma ConstPrefixed(s: string, c: string)
    requires s != [] && !IsSpace(s[0]) && !IsSpace(s[|s| - 1]) && c == "const " + s
    ensures c != [] && !IsSpace(c[0]) && !IsSpace(c[|c| - 1])
    ensures c != "void *" && c != "void" && c != "ALvoid"
    ensures StartsWith(c, "const ") && c[6..] == s
  {
    assert c[0] == 'c' && c[|c| - 1] == s[|s| - 1];
    assert c[..6] == "const ";
    assert c[6..] == s;
    assert "void *"[0] == 'v' && "void"[0] == 'v' && "ALvoid"[0] == 'A';
  }

  /** A name with no white space at either end resolves as it stands. */
  lemma TrimmedResolves(s: string)
    requires s == [] || (!IsSpace(s[0]) && !IsSpace(s[|s| - 1]))
    ensures RealType(s) == Resolve(s)
  {
    StripOfTrimmed(s);
  }

  /** The `LP` rule. */
  lemma VoidPointerRule(s: string)
    requires Contains(s, "LP")
    ensures Resolve(s) == Success(Some(CVoidP))
  {}

  /** The `const ` rule: the rest of the name is resolved. */
  lemma ConstRule(c: string)
    requires !Contains(c, "LP") && c != "void *" && c != "void" && c != "ALvoid"
    requires StartsWith(c, "const ")
    ensures Resolve(c) == RealType(c[6..])
  {}

  /** What a `#define` value becomes: an int, a float (its exact decimal
      value; binary rounding is not modelled) or a string. */
  datatype DefValue = IntVal(i: int) | FloatVal(x: real) | StrVal(s: string)

  /** The ValueError that `float()` or `int()` raises on a malformed value. */
  datatype DefineError = BadFloat(text: string) | BadHex(text: string) | BadInt(text: string)

  /** A value wrapped in parentheses, longer than the two parentheses, loses
      them. */
  function Unwrap(value: string): (v: string)
    ensures |value| > 2 && value[0] == '(' && value[|value| - 1] == ')' ==> v == value[1..|value| - 1]
    ensures !(|value| > 2 && value[0] == '(' && value[|value| - 1] == ')') ==> v == value
  {
    if |value| > 2 && value[0] == '(' && value[|value| - 1] == ')' then value[1..|value| - 1] else value
  }

  /** 10 to an integer power. */
  function Pow10(e: int): (r: real)
    ensures r > 0.0
    decreases if e < 0 then -e else e
  {
    if e == 0 then 1.0 else if e > 0 then 10.0 * Pow10(e - 1) else Pow10(e + 1) / 10.0
  }

  /** Where the first `e` or `E` is, or `|s|` if there is none. */
  function ExponentMark(s: string): (k: nat)
    ensures k <= |s| && (k < |s| ==> s[k] == 'e' || s[k] == 'E')
    ensures forall i :: 0 <= i < k ==> s[i] != 'e' && s[i] != 'E'
  {
    if s == [] then 0
    else if s[0] == 'e' || s[0] == 'E' then 0
    else 1 + ExponentMark(s[1..])
  }

  /** An optional sign and at least one decimal digit: `int()`'s syntax
      without underscores or surrounding white space. */
  function ParseSignedInt(s: string): (r: Option<int>)
    ensures s != [] && AllDigits(s) ==> r == Some(DecimalValue(s))
    ensures |s| >= 2 && (s[0] == '-' || s[0] == '+') && AllDigits(s[1..]) ==>
              r == Some(if s[0] == '-' then -(DecimalValue(s[1..]) as int) else DecimalValue(s[1..]))
    ensures r.Some? ==> s != [] && (AllDigits(s) || AllDigits(s[1..]))
  {
    if s != [] && (s[0] == '-' || s[0] == '+') then
      var d := s[1..];
      if d != [] && AllDigits(d) then Some(if s[0] == '-' then -(DecimalValue(d) as int) else DecimalValue(d)) else None
    else if s != [] && AllDigits(s) then Some(DecimalValue(s))
    else None
  }

  /** The value of an unsigned decimal mantissa: digits with at most one
      point and at least one digit. */
  function ParseMantissa(s: string): (r: Option<real>)
    ensures r.Some? ==> r.value >= 0.0
  {
    var parts := Split(s, '.');
    if |parts| == 1 then
      if s != [] && AllDigits(s) then Some(DecimalValue(s) as real) else None
    else if |parts| == 2 && (parts[0] != [] || parts[1] != []) && AllDigits(parts[0]) && AllDigits(parts[1]) then
      Some(DecimalValue(parts[0]) as real + FractionValue(parts[1]))
    else None
  }

  /** The value of the digits after the point. */
  function FractionValue(b: string): (x: real)
    requires AllDigits(b)
    ensures 0.0 <= x
  {
    DecimalValue(b) as real / Pow10(|b|)
  }

  /** `float(s)` on decimal notation: an optional sign, a mantissa and an
      optional exponent. `None` is the ValueError. */
  function ParseFloat(s: string): (r: Option<real>)
  {
    var sign := if s != [] && s[0] == '-' then -1.0 else 1.0;
    var u := if s != [] && (s[0] == '-' || s[0] == '+') then s[1..] else s;
    var k := ExponentMark(u);
    var m := ParseMantissa(u[..k]);
    var e := if k < |u| then ParseSignedInt(u[k + 1..]) else Some(0);
    if m.None? || e.None? then None else Some(sign * m.value * Pow10(e.value))
  }

  /** `regex.match("\-?\d+", value)`: the value BEGINS with an optional minus
      and a digit; the rest is not looked at. */
  predicate SignedDigitsPrefix(v: string)
  {
    (|v| >= 1 && IsDigit(v[0])) || (|v| >= 2 && v[0] == '-' && IsDigit(v[1]))
  }

  /** `int(text, 16)`: an optional sign and hexadecimal digits. */
  function ParseHex(text: string): (r: Option<int>)
    ensures text != [] && AllHexDigits(text) ==> r == Some(HexValue(text))
  {
    if text != [] && (text[0] == '-' || text[0] == '+') then
      var d := text[1..];
      if d != [] && AllHexDigits(d) then Some(if text[0] == '-' then -(HexValue(d) as int) else HexValue(d)) else None
    else if text != [] && AllHexDigits(text) then Some(HexValue(text))
    else None
  }

  /** `value[1:-1]` on a string of any length. */
  function Unquote(v: string): string
  {
    if |v| < 2 then [] else v[1..|v| - 1]
  }

  function FloatBranch(v: string): Result<DefValue, DefineError>
    requires EndsWith(v, "f")
  {
    var x := ParseFloat(v[..|v| - 1]);
    if x.None? then Failure(BadFloat(v)) else Success(FloatVal(x.value))
  }

  function HexBranch(v: string): Result<DefValue, DefineError>
    requires StartsWith(v, "0x")
  {
    var n := ParseHex(v[2..]);
    if n.None? then Failure(BadHex(v)) else Success(IntVal(n.value))
  }

  /** The branches after the float and hex tests: quoted strings, signed
      integers, and anything else kept as its text. */
  function LaterBranches(v: string): Result<DefValue, DefineError>
  {
    if StartsWith(v, "\"") then Success(StrVal(Unquote(v)))
    else if SignedDigitsPrefix(v) then
      var n := ParseSignedInt(v);
      if n.None? then Failure(BadInt(v)) else Success(IntVal(n.value))
    else Success(StrVal(v))
  }

  /** The value classification of `parse_definitions` as written: the `f`
      suffix is tested BEFORE the `0x` prefix. */
  function ClassifyDefineAsWritten(value: string): (r: Result<DefValue, DefineError>)
    ensures Unwrap(value) != "AL_TRUE" && Unwrap(value) != "AL_FALSE" && EndsWith(Unwrap(value), "f") ==>
              r == FloatBranch(Unwrap(value))
  {
    var v := Unwrap(value);
    if v == "AL_TRUE" then Success(IntVal(1))
    else if v == "AL_FALSE" then Success(IntVal(0))
    else if EndsWith(v, "f") then FloatBranch(v)
    else if StartsWith(v, "0x") then HexBranch(v)
    else LaterBranches(v)
  }

  /** The hexadecimal literal the source's own comment gives as an example
      is rejected: `float("0xdeadbee")` raises. */
  lemma HexEndingInFFails()
    ensures ClassifyDefineAsWritten("0xdeadbeef") == Failure(BadFloat("0xdeadbeef"))
  {
    var v := "0xdeadbeef";
    assert Unwrap(v) == v;
    assert EndsWith(v, "f");
    var u := v[..|v| - 1];
    assert u == "0xdeadbee";
    assert ExponentMark(u) == 3 by {
      assert u[0] == '0' && u[1] == 'x' && u[2] == 'd' && u[3] == 'e';
      assert u[1..][0] == 'x' && u[2..][0] == 'd' && u[3..][0] == 'e';
    }
    assert u[..3] == "0xd";
    SplitNoSeparator("0xd", '.');
    assert !AllDigits("0xd") by {
      assert "0xd"[1] == 'x';
    }
  }

  /** The intended classification: the `0x` test comes first, so every
      hexadecimal literal is an integer. */
  function ClassifyDefine(value: string): (r: Result<DefValue, DefineError>)
    ensures Unwrap(value) == "AL_TRUE" ==> r == Success(IntVal(1))
    ensures Unwrap(value) == "AL_FALSE" ==> r == Success(IntVal(0))
    ensures StartsWith(Unwrap(value), "0x") && Unwrap(value)[2..] != [] && AllHexDigits(Unwrap(value)[2..]) ==>
              r == Success(IntVal(HexValue(Unwrap(value)[2..])))
    ensures !StartsWith(Unwrap(value), "0x") ==> r == ClassifyDefineAsWritten(value)
  {
    var v := Unwrap(value);
    if v == "AL_TRUE" then Success(IntVal(1))
    else if v == "AL_FALSE" then Success(IntVal(0))
    else if StartsWith(v, "0x") then HexBranch(v)
    else if EndsWith(v, "f") then FloatBranch(v)
    else LaterBranches(v)
  }

  /** The order the classification tests in: `AsWritten` is the source's
      (the `f` suffix before the `0x` prefix), `HexFirst` the corrected
      one. The parser and both loaders take it as a parameter; the program
      as it stands is the `AsWritten` instance. */
  datatype DefineOrder = AsWritten | HexFirst

  function Classify(order: DefineOrder, value: string): (r: Result<DefValue, DefineError>)
    ensures order.AsWritten? ==> r == ClassifyDefineAsWritten(value)
    ensures order.HexFirst? ==> r == ClassifyDefine(value)
  {
    if order.AsWritten? then ClassifyDefineAsWritten(value) else ClassifyDefine(value)
  }

  /** The two orders differ only on values that start with `0x` once
      unwrapped. */
  lemma OrdersAgreeOffHex(value: string)
    requires !StartsWith(Unwrap(value), "0x")
    ensures Classify(AsWritten, value) == Classify(HexFirst, value)
  {}

  /** Every number written in lower-case hexadecimal, bare or in
      parentheses, classifies as that integer. */
  lemma {:induction false} HexLiteral(n: nat)
    ensures ClassifyDefine("0x" + Hex(n)) == Success(IntVal(n))
    ensures ClassifyDefine("(0x" + Hex(n) + ")") == Success(IntVal(n))
  {
    HexRoundTrip(n);
    var v := "0x" + Hex(n);
    assert v[2..] == Hex(n);
    assert StartsWith(v, "0x");
    assert v != "AL_TRUE" && v != "AL_FALSE" by { assert v[0] == '0'; }
    var w := "(0x" + Hex(n) + ")";
    assert Unwrap(w) == v;
  }

  /** Every string of decimal digits, with or without a minus sign,
      classifies as the integer it spells (`Decimal(n)` is such a string
      for every `n`, and spells `n`). */
  lemma DecimalLiteral(d: string)
    requires d != [] && AllDigits(d)
    ensures ClassifyDefine(d) == Success(IntVal(DecimalValue(d)))
    ensures ClassifyDefine("-" + d) == Success(IntVal(-(DecimalValue(d) as int)))
  {
    UnsignedDecimal(d);
    NegativeDecimal(d);
  }

  /** A value that is no keyword, not parenthesised, and neither ends in
      `f` nor starts with `0x` goes to the later branches. */
  lemma ReachesLaterBranches(v: string)
    requires Unwrap(v) == v && v != [] && v[0] != 'A' && !StartsWith(v, "0x") && !EndsWith(v, "f")
    ensures ClassifyDefine(v) == LaterBranches(v)
  {
    assert v != "AL_TRUE" && v != "AL_FALSE" by { assert "AL_TRUE"[0] == 'A' && "AL_FALSE"[0] == 'A'; }
  }

  lemma UnsignedDecimal(d: string)
    requires d != [] && AllDigits(d)
    ensures ClassifyDefine(d) == Success(IntVal(DecimalValue(d)))
  {
    assert IsDigit(d[0]) && IsDigit(d[|d| - 1]);
    assert Unwrap(d) == d;
    assert !StartsWith(d, "0x") by {
      if |d| >= 2 { assert IsDigit(d[1]); }
    }
    ReachesLaterBranches(d);
    assert !StartsWith(d, "\"") && SignedDigitsPrefix(d);
  }

  lemma NegativeDecimal(d: string)
    requires d != [] && AllDigits(d)
    ensures ClassifyDefine("-" + d) == Success(IntVal(-(DecimalValue(d) as int)))
  {
    var m := "-" + d;
    MinusShape(d, m);
    ReachesLaterBranches(m);
    MinusParse(d, m);
    IntegerBranch(m, -(DecimalValue(d) as int));
  }

  /** A minus sign in front of digits: no earlier rule of the
      classification applies, and the `-` and a digit open it. */
  lemma MinusShape(d: string, m: string)
    requires d != [] && AllDigits(d) && m == "-" + d
    ensures Unwrap(m) == m && m != [] && m[0] != 'A' && !StartsWith(m, "0x") && !EndsWith(m, "f")
    ensures !StartsWith(m, "\"") && SignedDigitsPrefix(m)
  {
    assert m[1..] == d && m[0] == '-' && m[|m| - 1] == d[|d| - 1] && IsDigit(m[|m| - 1]);
    assert IsDigit(m[1]);
  }

  /** `int("-" + d)` is minus the value of `d`. */
  lemma MinusParse(d: string, m: string)
    requires d != [] && AllDigits(d) && m == "-" + d
    ensures ParseSignedInt(m) == Some(-(DecimalValue(d) as int))
  {
    assert m[1..] == d && m[0] == '-';
  }

  /** A value that is not a string literal, opens like a signed integer and
      parses as `x` is the integer `x`. */
  lemma IntegerBranch(v: string, x: int)
    requires !StartsWith(v, "\"") && SignedDigitsPrefix(v) && ParseSignedInt(v) == Some(x)
    ensures LaterBranches(v) == Success(IntVal(x))
  {}

  /** A float literal `d.0f`, for a string of decimal digits `d`,
      classifies as the number `d` spells. */
  lemma FloatLiteral(d: string)
    requires d != [] && AllDigits(d)
    ensures ClassifyDefine(d + ".0f") == Success(FloatVal(DecimalValue(d) as real))
  {
    var v := d + ".0f";
    assert IsDigit(d[0]) && v[0] == d[0] && v[|v| - 1] == 'f';
    assert Unwrap(v) == v;
    assert !StartsWith(v, "0x") by {
      if |d| >= 2 { assert v[1] == d[1] && IsDigit(d[1]); } else { assert v[1] == '.'; }
    }
    ReachesFloatBranch(v);
    assert v[..|v| - 1] == d + ".0";
    PointZero(d);
  }

  /** A value that is no keyword, not parenthesised, does not start with
      `0x` and ends in `f` goes to the float branch. */
  lemma ReachesFloatBranch(v: string)
    requires Unwrap(v) == v && v != [] && v[0] != 'A' && !StartsWith(v, "0x") && EndsWith(v, "f")
    ensures ClassifyDefine(v) == FloatBranch(v)
  {
    assert v != "AL_TRUE" && v != "AL_FALSE" by { assert "AL_TRUE"[0] == 'A' && "AL_FALSE"[0] == 'A'; }
  }

  /** `float("d.0")` is the value of the digits `d`. */
  lemma PointZero(d: string)
    requires d != [] && AllDigits(d)
    ensures ParseFloat(d + ".0") == Some(DecimalValue(d) as real)
  {
    var u := d + ".0";
    assert u[0] == d[0] && IsDigit(u[0]);
    assert ExponentMark(u) == |u| by { ExponentFree(u); }
    assert u[..|u|] == u;
    PointZeroMantissa(d);
  }

  lemma PointZeroMantissa(d: string)
    requires d != [] && AllDigits(d)
    ensures ParseMantissa(d + ".0") == Some(DecimalValue(d) as real)
  {
    var u := d + ".0";
    DigitsHaveNoPoint(d);
    assert '.' !in "0" && u == d + "." + "0";
    SplitAtPoint(d, "0");
    ZeroFraction();
    TwoPartMantissa(u, d, "0");
  }

  lemma DigitsHaveNoPoint(d: string)
    requires AllDigits(d)
    ensures '.' !in d
  {
    forall i | 0 <= i < |d| ensures d[i] != '.' { assert IsDigit(d[i]); }
  }

  lemma ZeroFraction()
    ensures AllDigits("0") && FractionValue("0") == 0.0
  {
    assert DecimalValue("0") == 0 by { assert "0"[..0] == []; }
  }

  /** A mantissa with one point: the whole part plus the fraction. */
  lemma TwoPartMantissa(u: string, a: string, b: string)
    requires Split(u, '.') == [a, b] && a != [] && AllDigits(a) && AllDigits(b)
    ensures ParseMantissa(u) == Some(DecimalValue(a) as real + FractionValue(b))
  {
    var parts := Split(u, '.');
    assert |parts| == 2 && parts[0] == a && parts[1] == b;
  }

  lemma ExponentFree(s: string)
    requires forall i :: 0 <= i < |s| ==> s[i] != 'e' && s[i] != 'E'
    ensures ExponentMark(s) == |s|
  {}

  /** Splitting `a.b` at the point, where neither side has a point. */
  lemma {:induction false} SplitAtPoint(a: string, b: string)
    requires '.' !in a && '.' !in b
    ensures Split(a + "." + b, '.') == [a, b]
    decreases |a|
  {
    if a == [] {
      assert a + "." + b == "." + b;
      assert ("." + b)[1..] == b;
      SplitNoSeparator(b, '.');
    } else {
      var s := a + "." + b;
      assert s[1..] == a[1..] + "." + b;
      SplitAtPoint(a[1..], b);
      assert [a[0]] + a[1..] == a;
    }
  }

  lemma {:induction false} SplitNoSeparator(s: string, c: char)
    requires c !in s
    ensures Split(s, c) == [s]
  {
    if s != [] {
      SplitNoSeparator(s[1..], c);
      assert [s[0]] + s[1..] == s;
    }
  }

  /** A quoted value is its text between the quotes. */
  lemma {:induction false} QuotedLiteral(s: string)
    ensures ClassifyDefine("\"" + s + "\"") == Success(StrVal(s))
  {
    var v := "\"" + s + "\"";
    assert v[0] == '"' && v[|v| - 1] == '"';
    assert Unwrap(v) == v;
    assert v[1..|v| - 1] == s;
    assert v != "AL_TRUE" && v != "AL_FALSE" by { assert v[0] != 'A'; }
  }

  /** One `AL_API` declaration as the signature regex captures it. */
  datatype ApiDecl = ApiDecl(resName: string, name: string, params: seq<string>, typeNames: seq<string>)

  /** A header line: its text, the `(name, value)` pairs `findall` extracts
      from it, and the captures of the `AL_API` regex if it matched. */
  datatype Line = Line(text: string, defines: seq<(string, string)>, api: Option<ApiDecl>)

  /** The record appended to `procs`. */
  datatype ProcRecord = ProcRecord(resType: Option<CType>, name: string, argTypes: seq<Option<CType>>,
                                   params: seq<string>, typeNames: seq<string>, resName: string)

  /** What stops `parse_definitions`. */
  datatype ParseError = DefineFailed(defineError: DefineError) | TypeFailed(typeError: TypeError)

  /** A dict in insertion order: assigning an existing key keeps its place. */
  type Assoc = seq<(string, DefValue)>

  predicate Distinct(d: Assoc)
  {
    forall i, j :: 0 <= i < j < |d| ==> d[i].0 != d[j].0
  }

  function Keys(d: Assoc): set<string>
  {
    set i | 0 <= i < |d| :: d[i].0
  }

  function Lookup(d: Assoc, k: string): (r: Option<DefValue>)
    ensures r.Some? <==> k in Keys(d)
  {
    if d == [] then None
    else if d[|d| - 1].0 == k then Some(d[|d| - 1].1)
    else
      assert Keys(d) == Keys(d[..|d| - 1]) + {d[|d| - 1].0};
      Lookup(d[..|d| - 1], k)
  }

  /** A value found for a key is stored under it somewhere. */
  lemma {:induction false} LookupIndex(d: Assoc, k: string)
    requires Lookup(d, k).Some?
    ensures exists i :: 0 <= i < |d| && d[i] == (k, Lookup(d, k).value)
  {
    if d[|d| - 1].0 != k {
      var d' := d[..|d| - 1];
      LookupIndex(d', k);
      var i :| 0 <= i < |d'| && d'[i] == (k, Lookup(d', k).value);
      assert d[i] == d'[i];
    }
  }

  /** `d[k] = v`. */
  function Put(d: Assoc, k: string, v: DefValue): (r: Assoc)
    requires Distinct(d)
    ensures Distinct(r) && Keys(r) == Keys(d) + {k}
    ensures k in Keys(d) ==> |r| == |d| && forall i :: 0 <= i < |d| ==> r[i] == if d[i].0 == k then (k, v) else d[i]
    ensures k !in Keys(d) ==> r == d + [(k, v)]
  {
    if k in Keys(d) then
      var r := seq(|d|, i requires 0 <= i < |d| => if d[i].0 == k then (k, v) else d[i]);
      assert Keys(r) == Keys(d) by {
        forall x | x in Keys(d) ensures x in Keys(r) {
          var i :| 0 <= i < |d| && d[i].0 == x;
          assert r[i].0 == x;
        }
      }
      r
    else
      var r := d + [(k, v)];
      assert Keys(r) == Keys(d) + {k} by {
        assert r[|d|].0 == k;
        forall x | x in Keys(d) ensures x in Keys(r) {
          var i :| 0 <= i < |d| && d[i].0 == x;
          assert r[i].0 == x;
        }
      }
      r
  }

  /** In a dict, the value stored at a position is what its key looks up. */
  lemma {:induction false} LookupAt(d: Assoc, i: nat)
    requires Distinct(d) && i < |d|
    ensures Lookup(d, d[i].0) == Some(d[i].1)
  {
    if i < |d| - 1 {
      var d' := d[..|d| - 1];
      assert d'[i] == d[i];
      LookupAt(d', i);
    }
  }

  /** After `d[k] = v`, `d[k]` is `v` and every other key keeps its value. */
  lemma PutThenLookup(d: Assoc, k: string, v: DefValue, k': string)
    requires Distinct(d)
    ensures Lookup(Put(d, k, v), k') == if k' == k then Some(v) else Lookup(d, k')
  {
    var r := Put(d, k, v);
    if k' in Keys(r) {
      var i :| 0 <= i < |r| && r[i].0 == k';
      LookupAt(r, i);
      if k' != k {
        assert i < |d| && r[i] == d[i];
        LookupAt(d, i);
      }
    }
  }

  /** The defines of one line, added in order; the first malformed value
      stops the parse. */
  function AddDefines(order: DefineOrder, defs: Assoc, pairs: seq<(string, string)>): (r: Result<Assoc, ParseError>)
    requires Distinct(defs)
    ensures r.Success? ==> Distinct(r.value)
    decreases |pairs|
  {
    if pairs == [] then Success(defs)
    else
      var prior := AddDefines(order, defs, pairs[..|pairs| - 1]);
      if prior.Failure? then prior
      else
        var last := pairs[|pairs| - 1];
        var v := Classify(order, last.1);
        if v.Failure? then Failure(DefineFailed(v.error))
        else Success(Put(prior.value, last.0, v.value))
  }

  /** `[get_real_type(t) for t in type_names]`. */
  function RealTypes(names: seq<string>): (r: Result<seq<Option<CType>>, TypeError>)
    ensures r.Success? ==> (|r.value| == |names| &&
              forall i :: 0 <= i < |names| ==> RealType(names[i]) == Success(r.value[i]))
    ensures r.Failure? ==> exists i :: 0 <= i < |names| && RealType(names[i]).Failure?
  {
    if names == [] then Success([])
    else
      var prior := RealTypes(names[..|names| - 1]);
      var t := RealType(names[|names| - 1]);
      if prior.Failure? then
        FailureInPrefix(names, names[..|names| - 1]);
        Failure(prior.error)
      else if t.Failure? then Failure(t.error)
      else
        SuccessStep(RealType, names, names[..|names| - 1], prior.value, t.value);
        Success(prior.value + [t.value])
  }

  /** One more element that maps to a success, after a prefix whose
      elements all do. */
  lemma SuccessStep<A, B, E>(f: A -> Result<B, E>, xs: seq<A>, prefix: seq<A>, ys: seq<B>, y: B)
    requires xs != [] && prefix == xs[..|xs| - 1] && |ys| == |prefix|
    requires forall i :: 0 <= i < |prefix| ==> f(prefix[i]) == Success(ys[i])
    requires f(xs[|xs| - 1]) == Success(y)
    ensures forall i :: 0 <= i < |xs| ==> f(xs[i]) == Success((ys + [y])[i])
  {
    forall i | 0 <= i < |xs|
      ensures f(xs[i]) == Success((ys + [y])[i])
    {
      if i < |prefix| {
        assert xs[i] == prefix[i];
      }
    }
  }

  /** A name of the prefix that fails to resolve is a name of the list. */
  lemma FailureInPrefix(names: seq<string>, prefix: seq<string>)
    requires names != [] && prefix == names[..|names| - 1]
    requires exists i :: 0 <= i < |prefix| && RealType(prefix[i]).Failure?
    ensures exists i :: 0 <= i < |names| && RealType(names[i]).Failure?
  {
    var i :| 0 <= i < |prefix| && RealType(prefix[i]).Failure?;
    assert names[i] == prefix[i];
  }

  /** The record for one declaration: a `void`/`ALvoid` result is `None`
      without consulting `get_real_type`. */
  function ProcOf(d: ApiDecl): (r: Result<ProcRecord, ParseError>)
    ensures r.Success? ==> r.value.name == d.name && |r.value.argTypes| == |d.typeNames| &&
                           r.value.params == d.params && r.value.typeNames == d.typeNames && r.value.resName == d.resName
    ensures r.Success? && (d.resName == "void" || d.resName == "ALvoid") ==> r.value.resType == None
  {
    var res := if d.resName == "ALvoid" || d.resName == "void" then Success(None) else RealType(d.resName);
    var args := RealTypes(d.typeNames);
    if res.Failure? then Failure(TypeFailed(res.error))
    else if args.Failure? then Failure(TypeFailed(args.error))
    else Success(ProcRecord(res.value, d.name, args.value, d.params, d.typeNames, d.resName))
  }

  /** The definitions and procedures collected so far. */
  datatype Parsed = Parsed(defs: Assoc, procs: seq<ProcRecord>)

  /** One line of `parse_definitions`: a line containing the comment opener `/` `*` contributes
      nothing; otherwise its defines (if it mentions `#define`) and then its
      declaration (if it mentions `AL_API` and the regex matched). */
  function ParseLine(order: DefineOrder, acc: Parsed, line: Line): (r: Result<Parsed, ParseError>)
    requires Distinct(acc.defs)
    ensures Contains(line.text, "/*") ==> r == Success(acc)
    ensures r.Success? ==> Distinct(r.value.defs) && |acc.procs| <= |r.value.procs| <= |acc.procs| + 1 &&
                           r.value.procs[..|acc.procs|] == acc.procs
  {
    if Contains(line.text, "/*") then Success(acc)
    else
      var defs := if Contains(line.text, "#define") then AddDefines(order, acc.defs, line.defines) else Success(acc.defs);
      if defs.Failure? then Failure(defs.error)
      else if Contains(line.text, "AL_API") && line.api.Some? then
        var p := ProcOf(line.api.value);
        if p.Failure? then Failure(p.error)
        else
          assert (acc.procs + [p.value])[..|acc.procs|] == acc.procs;
          Success(Parsed(defs.value, acc.procs + [p.value]))
      else Success(Parsed(defs.value, acc.procs))
  }

  /** `parse_definitions` over a header's lines, as a left fold. */
  function ParseLines(order: DefineOrder, lines: seq<Line>): (r: Result<Parsed, ParseError>)
    ensures r.Success? ==> Distinct(r.value.defs)
  {
    if lines == [] then Success(Parsed([], []))
    else
      var prior := ParseLines(order, lines[..|lines| - 1]);
      if prior.Failure? then prior else ParseLine(order, prior.value, lines[|lines| - 1])
  }

  /** No define value of any line starts with `0x` once unwrapped. */
  predicate NoHexDefines(lines: seq<Line>)
  {
    forall i, j :: 0 <= i < |lines| && 0 <= j < |lines[i].defines| ==> !StartsWith(Unwrap(lines[i].defines[j].1), "0x")
  }

  /** Off hexadecimal values the source's order and the corrected one add the
      same defines. */
  lemma {:induction false} AddDefinesOrdersAgree(defs: Assoc, pairs: seq<(string, string)>)
    requires Distinct(defs)
    requires forall j :: 0 <= j < |pairs| ==> !StartsWith(Unwrap(pairs[j].1), "0x")
    ensures AddDefines(AsWritten, defs, pairs) == AddDefines(HexFirst, defs, pairs)
    decreases |pairs|
  {
    if pairs != [] {
      AddDefinesOrdersAgree(defs, pairs[..|pairs| - 1]);
      OrdersAgreeOffHex(pairs[|pairs| - 1].1);
    }
  }

  /** One line whose defines hold no hexadecimal value parses the same
      under both orders. */
  lemma ParseLineOrdersAgree(acc: Parsed, l: Line)
    requires Distinct(acc.defs)
    requires forall j :: 0 <= j < |l.defines| ==> !StartsWith(Unwrap(l.defines[j].1), "0x")
    ensures ParseLine(AsWritten, acc, l) == ParseLine(HexFirst, acc, l)
  {
    AddDefinesOrdersAgree(acc.defs, l.defines);
  }

  /** A header whose defines hold no hexadecimal value parses the same under
      both orders: the corrected parser changes nothing else. */
  lemma {:induction false} ParseOrdersAgree(lines: seq<Line>)
    requires NoHexDefines(lines)
    ensures ParseLines(AsWritten, lines) == ParseLines(HexFirst, lines)
  {
    if lines != [] {
      var prefix := lines[..|lines| - 1];
      var l := lines[|lines| - 1];
      assert NoHexDefines(prefix) by {
        forall i, j | 0 <= i < |prefix| && 0 <= j < |prefix[i].defines|
          ensures !StartsWith(Unwrap(prefix[i].defines[j].1), "0x")
        {
          assert prefix[i] == lines[i];
        }
      }
      assert forall j :: 0 <= j < |l.defines| ==> !StartsWith(Unwrap(l.defines[j].1), "0x") by {
        forall j | 0 <= j < |l.defines| ensures !StartsWith(Unwrap(l.defines[j].1), "0x") {
          assert l == lines[|lines| - 1];
        }
      }
      ParseOrdersAgree(prefix);
      ParseLinesStep(AsWritten, lines, prefix);
      ParseLinesStep(HexFirst, lines, prefix);
      var prior := ParseLines(AsWritten, prefix);
      if prior.Success? {
        ParseLineOrdersAgree(prior.value, l);
      }
    }
  }

  /** The header line `#define X 0xdeadbeef`. */
  function DeadBeefLine(): Line
  {
    Line("#define X 0xdeadbeef", [("X", "0xdeadbeef")], None)
  }

  /** The line is a `#define` line, with no comment opener and no
      `AL_API` declaration. */
  lemma DeadBeefLineShape()
    ensures var t := DeadBeefLine().text;
            Contains(t, "#define") && !Contains(t, "/*") && !Contains(t, "AL_API")
  {
    var t := DeadBeefLine().text;
    assert StartsWith(t, "#define") by { assert t[..7] == "#define"; }
    LacksHead(t, "/*");
    LacksHead(t, "AL_API");
  }

  /** The line's text holds neither `/` nor `A`, so neither marker. */
  lemma LacksHead(t: string, marker: string)
    requires t == DeadBeefLine().text && (marker == "/*" || marker == "AL_API")
    ensures !Contains(t, marker)
  {
    assert marker[0] !in t by {
      forall i | 0 <= i < |t| ensures t[i] != marker[0] {
        assert t[i] in "#defin X0xab";
      }
    }
    PrefixWithoutHead(t, "", marker);
    assert t + "" == t;
  }

  /** `0xdeadbeef` in hexadecimal digits. */
  lemma DeadBeefValue()
    ensures HexValue("deadbeef") == 0xdeadbeef
  {
    assert "d"[..0] == [] && "de"[..1] == "d" && "dea"[..2] == "de" && "dead"[..3] == "dea";
    assert "deadb"[..4] == "dead" && "deadbe"[..5] == "deadb" && "deadbee"[..6] == "deadbe";
    assert "deadbeef"[..7] == "deadbee";
  }

  /** Its one define fails as written and is the integer when hexadecimal
      comes first. */
  lemma DeadBeefDefines()
    ensures AddDefines(AsWritten, [], DeadBeefLine().defines) == Failure(DefineFailed(BadFloat("0xdeadbeef")))
    ensures AddDefines(HexFirst, [], DeadBeefLine().defines) == Success([("X", IntVal(0xdeadbeef))])
  {
    var pairs := DeadBeefLine().defines;
    assert pairs[..0] == [];
    assert AddDefines(AsWritten, [], pairs[..0]) == Success([]);
    assert AddDefines(HexFirst, [], pairs[..0]) == Success([]);
    HexEndingInFFails();
    DeadBeefHexFirst();
    assert "X" !in Keys([]);
    assert Put([], "X", IntVal(0xdeadbeef)) == [("X", IntVal(0xdeadbeef))];
  }

  /** Hexadecimal first, `0xdeadbeef` is that integer. */
  lemma DeadBeefHexFirst()
    ensures Classify(HexFirst, "0xdeadbeef") == Success(IntVal(0xdeadbeef))
  {
    assert Unwrap("0xdeadbeef") == "0xdeadbeef";
    assert StartsWith("0xdeadbeef", "0x") by { assert "0xdeadbeef"[..2] == "0x"; }
    assert "0xdeadbeef"[2..] == "deadbeef";
    assert AllHexDigits("deadbeef");
    DeadBeefValue();
  }

  /** A header of that one line parses as its define does. */
  lemma DeadBeefHeader(order: DefineOrder)
    ensures var d := AddDefines(order, [], DeadBeefLine().defines);
            ParseLines(order, [DeadBeefLine()]) == if d.Failure? then Failure(d.error) else Success(Parsed(d.value, []))
  {
    DeadBeefLineShape();
    assert [DeadBeefLine()][..0] == [];
  }

  /** As written, a header holding that line aborts the whole load with the
      ValueError of `float("0xdeadbee")`, whatever the other headers hold;
      with the corrected order the header defines `X` as the integer. */
  lemma HexDefineAbortsLoad(rest: seq<Option<seq<Line>>>)
    ensures ParseLines(AsWritten, [DeadBeefLine()]) == Failure(DefineFailed(BadFloat("0xdeadbeef")))
    ensures LoadHeaders(AsWritten, [Some([DeadBeefLine()])] + rest) == Failure(DefineFailed(BadFloat("0xdeadbeef")))
    ensures ParseLines(HexFirst, [DeadBeefLine()]) == Success(Parsed([("X", IntVal(0xdeadbeef))], []))
  {
    DeadBeefDefines();
    DeadBeefHeader(AsWritten);
    DeadBeefHeader(HexFirst);
    var files := [Some([DeadBeefLine()])] + rest;
    assert files[..1][..0] == [];
    LoadFailureSticks(AsWritten, files, 1);
  }

  /** A comment line anywhere in a header changes nothing. */
  lemma CommentLineIgnored(order: DefineOrder, lines: seq<Line>, l: Line)
    requires Contains(l.text, "/*")
    ensures ParseLines(order, lines + [l]) == ParseLines(order, lines)
  {
    assert (lines + [l])[..|lines|] == lines;
  }

  /** Once a line fails, the whole header fails with the same error. */
  lemma {:induction false} FailureSticks(order: DefineOrder, lines: seq<Line>, n: nat)
    requires n <= |lines| && ParseLines(order, lines[..n]).Failure?
    ensures ParseLines(order, lines) == ParseLines(order, lines[..n])
    decreases |lines| - n
  {
    if n < |lines| {
      ParseLinesStep(order, lines[..n + 1], lines[..n]);
      FailureSticks(order, lines, n + 1);
    } else {
      assert lines[..n] == lines;
    }
  }

  /** One more line: a failure so far stays, otherwise the line is parsed. */
  lemma ParseLinesStep(order: DefineOrder, lines: seq<Line>, prefix: seq<Line>)
    requires lines != [] && prefix == lines[..|lines| - 1]
    ensures ParseLines(order, prefix).Failure? ==> ParseLines(order, lines) == ParseLines(order, prefix)
    ensures ParseLines(order, prefix).Success? ==> ParseLines(order, lines) == ParseLine(order, ParseLines(order, prefix).value, lines[|lines| - 1])
  {}

  /** `parse_definitions(fname)` on the lines of the file: `defs` in
      insertion order and the procedure records in line order. */
  method ParseDefinitions(order: DefineOrder, lines: seq<Line>) returns (r: Result<Parsed, ParseError>)
    ensures r == ParseLines(order, lines)
  {
    var defs: Assoc := [];
    var procs: seq<ProcRecord> := [];
    var i := 0;
    while i < |lines|
      invariant 0 <= i <= |lines|
      invariant ParseLines(order, lines[..i]) == Success(Parsed(defs, procs))
    {
      ParseLinesStep(order, lines[..i + 1], lines[..i]);
      var next := ParseOneLine(order, Parsed(defs, procs), lines[i]);
      if next.Failure? {
        r := next;
        FailureSticks(order, lines, i + 1);
        return;
      }
      defs, procs := next.value.defs, next.value.procs;
      i := i + 1;
    }
    assert lines[..i] == lines;
    r := Success(Parsed(defs, procs));
  }

  /** The body of the loop over lines: skip a comment line, add the
      line's defines, then record its declaration. */
  method ParseOneLine(order: DefineOrder, acc: Parsed, line: Line) returns (r: Result<Parsed, ParseError>)
    requires Distinct(acc.defs)
    ensures r == ParseLine(order, acc, line)
  {
    var defs, procs := acc.defs, acc.procs;
    if !Contains(line.text, "/*") {
      if Contains(line.text, "#define") {
        var added := AddAll(order, defs, line.defines);
        if added.Failure? {
          return Failure(added.error);
        }
        defs := added.value;
      }
      if Contains(line.text, "AL_API") && line.api.Some? {
        var p := ProcOf(line.api.value);
        if p.Failure? {
          return Failure(p.error);
        }
        procs := procs + [p.value];
      }
    }
    r := Success(Parsed(defs, procs));
  }

  /** The inner loop over one line's `(name, value)` pairs. */
  method AddAll(order: DefineOrder, defs: Assoc, pairs: seq<(string, string)>) returns (r: Result<Assoc, ParseError>)
    requires Distinct(defs)
    ensures r == AddDefines(order, defs, pairs)
  {
    var d := defs;
    var j := 0;
    while j < |pairs|
      invariant 0 <= j <= |pairs|
      invariant AddDefines(order, defs, pairs[..j]) == Success(d)
    {
      AddDefinesStep(order, defs, pairs[..j + 1], pairs[..j]);
      var v := Classify(order, pairs[j].1);
      if v.Failure? {
        r := Failure(DefineFailed(v.error));
        AddFailureSticks(order, defs, pairs, j + 1);
        return;
      }
      d := Put(d, pairs[j].0, v.value);
      j := j + 1;
    }
    assert pairs[..j] == pairs;
    r := Success(d);
  }

  lemma {:induction false} AddFailureSticks(order: DefineOrder, defs: Assoc, pairs: seq<(string, string)>, n: nat)
    requires Distinct(defs) && n <= |pairs| && AddDefines(order, defs, pairs[..n]).Failure?
    ensures AddDefines(order, defs, pairs) == AddDefines(order, defs, pairs[..n])
    decreases |pairs| - n
  {
    if n < |pairs| {
      AddDefinesStep(order, defs, pairs[..n + 1], pairs[..n]);
      AddFailureSticks(order, defs, pairs, n + 1);
    } else {
      assert pairs[..n] == pairs;
    }
  }

  /** One more pair: a failure so far stays, otherwise the pair's value is
      classified and put. */
  lemma AddDefinesStep(order: DefineOrder, defs: Assoc, pairs: seq<(string, string)>, prefix: seq<(string, string)>)
    requires Distinct(defs) && pairs != [] && prefix == pairs[..|pairs| - 1]
    ensures AddDefines(order, defs, prefix).Failure? ==> AddDefines(order, defs, pairs) == AddDefines(order, defs, prefix)
    ensures AddDefines(order, defs, prefix).Success? ==>
              var v := Classify(order, pairs[|pairs| - 1].1);
              AddDefines(order, defs, pairs) ==
                if v.Failure? then Failure(DefineFailed(v.error))
                else Success(Put(AddDefines(order, defs, prefix).value, pairs[|pairs| - 1].0, v.value))
  {}

  /** A dictionary key as Python compares it: `1` and `1.0` are the same
      key. */
  datatype EnumKey = NumKey(x: real) | StrKey(s: string)

  function KeyOf(v: DefValue): EnumKey
  {
    match v
    case IntVal(i) => NumKey(i as real)
    case FloatVal(x) => NumKey(x)
    case StrVal(s) => StrKey(s)
  }

  /** `for k, v in defs.items(): enums[v] = k`, in insertion order, so the
      last name with a given value wins. */
  function Invert(enums: map<EnumKey, string>, d: Assoc): (r: map<EnumKey, string>)
    ensures forall i :: 0 <= i < |d| ==> KeyOf(d[i].1) in r
    ensures forall key :: key in r && key !in enums ==> exists i :: 0 <= i < |d| && KeyOf(d[i].1) == key
  {
    if d == [] then enums
    else
      var r := Invert(enums, d[..|d| - 1])[KeyOf(d[|d| - 1].1) := d[|d| - 1].0];
      assert forall i :: 0 <= i < |d| - 1 ==> d[i] == d[..|d| - 1][i];
      r
  }

  /** Every name the inverse map gives for a value defines that value: the
      table is a right inverse of the header's definitions. */
  lemma {:induction false} InvertIsRightInverse(d: Assoc, key: EnumKey)
    requires Distinct(d) && key in Invert(map[], d)
    ensures var name := Invert(map[], d)[key];
            Lookup(d, name).Some? && KeyOf(Lookup(d, name).value) == key
  {
    var d' := d[..|d| - 1];
    var last := d[|d| - 1];
    assert Distinct(d');
    var name := Invert(map[], d)[key];
    if KeyOf(last.1) == key {
      assert name == last.0;
    } else {
      InvertIsRightInverse(d', key);
      assert name == Invert(map[], d')[key];
      var v := Lookup(d', name).value;
      LookupIndex(d', name);
      var i :| 0 <= i < |d'| && d'[i] == (name, v);
      assert d[i] == (name, v);
      assert last.0 != name by { assert i < |d| - 1; }
      assert Lookup(d, name) == Lookup(d', name);
    }
  }

  /** The namespace entries: constants, procedures, and `openal_enums`. */
  datatype Entry = Constant(value: DefValue) | Procedure(proc: ProcRecord) | EnumTable(enums: map<EnumKey, string>)

  /** The header files, in load order. */
  const Headers: seq<string> := ["openal_headers/efx.h", "openal_headers/alext.h",
                                 "openal_headers/al.h", "openal_headers/alc.h"]

  /** What loading has built so far. */
  datatype Loaded = Loaded(allDefs: map<string, Entry>, enums: map<EnumKey, string>)

  /** `all_defs.update(defs)`. */
  function AddConstants(m: map<string, Entry>, d: Assoc): (r: map<string, Entry>)
    ensures forall i :: 0 <= i < |d| ==> d[i].0 in r
  {
    if d == [] then m
    else
      var r := AddConstants(m, d[..|d| - 1])[d[|d| - 1].0 := Constant(d[|d| - 1].1)];
      assert forall i :: 0 <= i < |d| - 1 ==> d[i] == d[..|d| - 1][i];
      r
  }

  /** `add_procs(procs, all_defs)`: each procedure under its name. */
  function AddProcedures(m: map<string, Entry>, procs: seq<ProcRecord>): (r: map<string, Entry>)
    ensures forall i :: 0 <= i < |procs| ==> procs[i].name in r
    ensures |procs| > 0 ==> r[procs[|procs| - 1].name] == Procedure(procs[|procs| - 1])
  {
    if procs == [] then m
    else
      var r := AddProcedures(m, procs[..|procs| - 1])[procs[|procs| - 1].name := Procedure(procs[|procs| - 1])];
      assert forall i :: 0 <= i < |procs| - 1 ==> procs[i] == procs[..|procs| - 1][i];
      r
  }

  /** One header: a missing file (`None`) is skipped; otherwise its
      constants, then the inverse entries, then its procedures. */
  function LoadHeader(order: DefineOrder, acc: Loaded, header: Option<seq<Line>>): Result<Loaded, ParseError>
  {
    if header.None? then Success(acc)
    else
      var p := ParseLines(order, header.value);
      if p.Failure? then Failure(p.error)
      else
        var defs := AddConstants(acc.allDefs, p.value.defs);
        Success(Loaded(AddProcedures(defs, p.value.procs), Invert(acc.enums, p.value.defs)))
  }

  function LoadHeaders(order: DefineOrder, headers: seq<Option<seq<Line>>>): (r: Result<Loaded, ParseError>)
  {
    if headers == [] then Success(Loaded(map[], map[]))
    else
      var prior := LoadHeaders(order, headers[..|headers| - 1]);
      if prior.Failure? then prior else LoadHeader(order, prior.value, headers[|headers| - 1])
  }

  /** One more header: a failure so far stays, otherwise the header is
      loaded. */
  lemma LoadHeadersStep(order: DefineOrder, headers: seq<Option<seq<Line>>>, prefix: seq<Option<seq<Line>>>)
    requires headers != [] && prefix == headers[..|headers| - 1]
    ensures LoadHeaders(order, prefix).Failure? ==> LoadHeaders(order, headers) == LoadHeaders(order, prefix)
    ensures LoadHeaders(order, prefix).Success? ==>
              LoadHeaders(order, headers) == LoadHeader(order, LoadHeaders(order, prefix).value, headers[|headers| - 1])
  {}

  /** The namespace `load_extensions` returns: everything loaded, plus
      `openal_enums`. */
  function Namespace(l: Loaded): (ns: map<string, Entry>)
    ensures "openal_enums" in ns && ns["openal_enums"] == EnumTable(l.enums)
  {
    l.allDefs["openal_enums" := EnumTable(l.enums)]
  }

  /** A missing header file adds nothing to what the files before it
      loaded. */
  lemma MissingHeaderSkipped(order: DefineOrder, headers: seq<Option<seq<Line>>>)
    ensures LoadHeaders(order, headers + [None]) == LoadHeaders(order, headers)
  {
    assert (headers + [None])[..|headers|] == headers;
  }

  /** `load_extensions()`, given the contents of the four header files
      (`None` for a file that does not exist). */
  method LoadExtensions(order: DefineOrder, files: seq<Option<seq<Line>>>) returns (r: Result<map<string, Entry>, ParseError>)
    requires |files| == |Headers|
    ensures LoadHeaders(order, files).Failure? ==> r == Failure(LoadHeaders(order, files).error)
    ensures LoadHeaders(order, files).Success? ==> r == Success(Namespace(LoadHeaders(order, files).value))
  {
    var allDefs: map<string, Entry> := map[];
    var enums: map<EnumKey, string> := map[];
    var i := 0;
    while i < |files|
      invariant 0 <= i <= |files|
      invariant LoadHeaders(order, files[..i]) == Success(Loaded(allDefs, enums))
    {
      LoadHeadersStep(order, files[..i + 1], files[..i]);
      if files[i].Some? {
        var parsed := ParseDefinitions(order, files[i].value);
        if parsed.Failure? {
          r := Failure(parsed.error);
          LoadFailureSticks(order, files, i + 1);
          return;
        }
        allDefs := AddConstants(allDefs, parsed.value.defs);
        enums := Invert(enums, parsed.value.defs);
        allDefs := AddProcedures(allDefs, parsed.value.procs);
      }
      i := i + 1;
    }
    assert files[..i] == files;
    r := Success(allDefs["openal_enums" := EnumTable(enums)]);
  }

  lemma {:induction false} LoadFailureSticks(order: DefineOrder, files: seq<Option<seq<Line>>>, n: nat)
    requires n <= |files| && LoadHeaders(order, files[..n]).Failure?
    ensures LoadHeaders(order, files) == LoadHeaders(order, files[..n])
    decreases |files| - n
  {
    if n < |files| {
      LoadHeadersStep(order, files[..n + 1], files[..n]);
      LoadFailureSticks(order, files, n + 1);
    } else {
      assert files[..n] == files;
    }
  }
}
