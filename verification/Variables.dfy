/** pkg/apis/compliance/v1alpha1/variable_types.go: variables, and which values they accept. */
module Variables {
  import opened ApiTypes

  const NUMBER_TYPE := "number"
  const BOOL_TYPE := "bool"
  const STRING_TYPE := "string"

  // --- what strconv accepts ----------------------------------------------------------------

  predicate IsDigit(c: char) { '0' <= c <= '9' }

  function Numeral(digits: string): nat
    requires forall c <- digits :: IsDigit(c)
  {
    if digits == "" then 0
    else
      assert IsDigit(digits[|digits| - 1]);
      10 * Numeral(digits[..|digits| - 1]) + (digits[|digits| - 1] as int - '0' as int)
  }

  /** `strconv.Atoi` on a 64-bit platform: an optional sign, at least one digit, and a value in range. */
  predicate ParsesAsInt(s: string) {
    var negative := s != "" && s[0] == '-';
    var digits := if s != "" && (s[0] == '-' || s[0] == '+') then s[1..] else s;
    && digits != ""
    && (forall c <- digits :: IsDigit(c))
    && Numeral(digits) < 0x8000_0000_0000_0000 + (if negative then 1 else 0)
  }

  /** `strconv.ParseBool`. */
  predicate ParsesAsBool(s: string) {
    s in {"1", "t", "T", "TRUE", "true", "True", "0", "f", "F", "FALSE", "false", "False"}
  }

  // --- the specification -------------------------------------------------------------------

  predicate FitsType(varType: string, val: string) {
    if varType == NUMBER_TYPE then ParsesAsInt(val)
    else if varType == BOOL_TYPE then ParsesAsBool(val)
    else if varType == STRING_TYPE then val != ""
    else true
  }

  predicate FitsSelections(selections: seq<ValueSelection>, val: string) {
    selections == [] || exists s <- selections :: s.value == val
  }

  predicate Legal(v: VariableData, val: string) {
    FitsType(v.varType, val) && FitsSelections(v.selections, val)
  }

  /** The variable after an attempt to set it. */
  function AfterSet(v: VariableData, val: string): VariableData {
    if Legal(v, val) then v.(value := val) else v
  }

  function AfterSets(v: VariableData, vals: seq<string>): VariableData
    decreases |vals|
  {
    if vals == [] then v else AfterSets(AfterSet(v, vals[0]), vals[1..])
  }

  // --- the variable ------------------------------------------------------------------------

  class Variable {
    var id: string
    var title: string
    var varType: string
    var value: string
    var selections: seq<ValueSelection>

    constructor (v: VariableData)
      ensures Data() == v
    {
      id, title, varType, value, selections := v.id, v.title, v.varType, v.value, v.selections;
    }

    function Data(): VariableData
      reads this
    {
      VariableData(id, title, varType, value, selections)
    }

    method SetValue(val: string) returns (ok: bool)
      modifies this`value
      ensures ok <==> Legal(old(Data()), val)
      ensures Data() == AfterSet(old(Data()), val)
    {
      ok := ValidateType(val);
      if !ok {
        return;
      }
      ok := ValidateValue(val);
      if !ok {
        return;
      }
      value := val;
    }

    method ValidateType(val: string) returns (ok: bool)
      ensures ok <==> FitsType(varType, val)
    {
      ok := true;
      if varType == NUMBER_TYPE {
        ok := ParsesAsInt(val);
      } else if varType == BOOL_TYPE {
        ok := ParsesAsBool(val);
      } else if varType == STRING_TYPE {
        if |val| == 0 {
          ok := false;
        }
      }
    }

    method ValidateValue(val: string) returns (ok: bool)
      ensures ok <==> FitsSelections(selections, val)
    {
      if |selections| == 0 {
        return true;
      }
      for i := 0 to |selections|
        invariant forall j :: 0 <= j < i ==> selections[j].value != val
      {
        if selections[i].value == val {
          return true;
        }
      }
      return false;
    }
  }

  // --- any number of attempts --------------------------------------------------------------

  /** After any attempts the variable holds the last legal one, or what it held if none was legal;
      nothing else about it changes. */
  lemma {:induction false} LastLegalValueStays(v: VariableData, vals: seq<string>)
    ensures var after := AfterSets(v, vals);
      && after == v.(value := after.value)
      && ((exists val <- vals :: Legal(v, val)) ==> Legal(v, after.value))
      && (forall i :: 0 <= i < |vals| && Legal(v, vals[i]) && (forall j :: i < j < |vals| ==> !Legal(v, vals[j]))
           ==> after.value == vals[i])
      && ((forall val <- vals :: !Legal(v, val)) ==> after == v)
    decreases |vals|
  {
    if vals != [] {
      var v' := AfterSet(v, vals[0]);
      LastLegalValueStays(v', vals[1..]);
      assert forall val :: Legal(v', val) == Legal(v, val);
      assert forall val :: val in vals <==> val == vals[0] || val in vals[1..];
      forall i | 0 <= i < |vals| && Legal(v, vals[i]) && forall j :: i < j < |vals| ==> !Legal(v, vals[j])
        ensures AfterSets(v, vals).value == vals[i]
      {
        if i > 0 {
          assert vals[1..][i - 1] == vals[i];
          assert forall j :: i - 1 < j < |vals[1..]| ==> vals[1..][j] == vals[j + 1];
        } else {
          forall val <- vals[1..] ensures !Legal(v', val) {
            var j :| 0 <= j < |vals[1..]| && vals[1..][j] == val;
            assert vals[j + 1] == val;
          }
        }
      }
    }
  }

  // --- which values are legal, in other words ------------------------------------------------

  /** The decimal numeral of a number. */
  function Digits(n: nat): string {
    if n < 10 then [('0' as int + n) as char] else Digits(n / 10) + [('0' as int + n % 10) as char]
  }

  function Zeros(k: nat): string { seq(k, _ => '0') }

  lemma {:induction false} DigitsAreANumeral(k: nat, n: nat)
    ensures forall c <- Zeros(k) + Digits(n) :: IsDigit(c)
    ensures Numeral(Zeros(k) + Digits(n)) == n
    decreases n, k
  {
    var s := Zeros(k) + Digits(n);
    if n >= 10 {
      DigitsAreANumeral(k, n / 10);
      assert s[..|s| - 1] == Zeros(k) + Digits(n / 10);
      assert s == (Zeros(k) + Digits(n / 10)) + [s[|s| - 1]];
    } else {
      assert s[..|s| - 1] == Zeros(k);
      ZerosAreZero(k);
    }
  }

  lemma {:induction false} ZerosAreZero(k: nat)
    ensures Numeral(Zeros(k)) == 0
  {
    if k > 0 {
      ZerosAreZero(k - 1);
      assert Zeros(k)[..k - 1] == Zeros(k - 1);
    }
  }

  lemma OneMoreDigit(n: nat, d: nat)
    requires d < 10 && n > 0
    ensures Digits(10 * n + d) == Digits(n) + [('0' as int + d) as char]
  {
    assert (10 * n + d) / 10 == n && (10 * n + d) % 10 == d;
  }

  lemma {:induction false} NumeralsAreDigits(s: string) returns (k: nat)
    requires s != "" && forall c <- s :: IsDigit(c)
    ensures s == Zeros(k) + Digits(Numeral(s))
  {
    var init, last := s[..|s| - 1], s[|s| - 1];
    var d := last as int - '0' as int;
    assert IsDigit(last) && Numeral(s) == 10 * Numeral(init) + d;
    if init == "" {
      k := 0;
    } else {
      k := NumeralsAreDigits(init);
      if Numeral(init) == 0 {
        assert init == Zeros(k + 1);
        k := k + 1;
      } else {
        OneMoreDigit(Numeral(init), d);
      }
    }
  }

  /** An optional sign, zeros, and the numeral of a number in the range of 64 bits. */
  ghost predicate WritesInt64(s: string, sign: string, k: nat, n: nat) {
    && s == sign + (Zeros(k) + Digits(n)) && sign in {"", "+", "-"}
    && n <= (if sign == "-" then 9223372036854775808 else 9223372036854775807)
  }

  ghost predicate IsInt64(s: string) { exists sign, k, n :: WritesInt64(s, sign, k, n) }

  lemma ParsedIsInt64(s: string)
    requires ParsesAsInt(s)
    ensures IsInt64(s)
  {
    var signed := s[0] == '-' || s[0] == '+';
    var digits := if signed then s[1..] else s;
    var k := NumeralsAreDigits(digits);
    assert s == (if signed then [s[0]] else "") + digits;
    assert WritesInt64(s, if signed then [s[0]] else "", k, Numeral(digits));
  }

  lemma Int64Parses(s: string, sign: string, k: nat, n: nat)
    requires WritesInt64(s, sign, k, n)
    ensures ParsesAsInt(s)
  {
    var digits := Zeros(k) + Digits(n);
    DigitsAreANumeral(k, n);
    assert digits[0] in digits && IsDigit(digits[0]);
    if sign == "" {
      assert s == digits;
    } else {
      assert s[0] == sign[0] && s[1..] == digits;
    }
  }

  lemma ParsesAsIntExactly(s: string)
    ensures ParsesAsInt(s) <==> IsInt64(s)
  {
    if ParsesAsInt(s) {
      ParsedIsInt64(s);
    }
    if sign, k, n :| WritesInt64(s, sign, k, n) {
      Int64Parses(s, sign, k, n);
    }
  }

  ghost predicate IsTruthValue(s: string) {
    s in {"1", "t", "T", "true", "TRUE", "True"} || s in {"0", "f", "F", "false", "FALSE", "False"}
  }

  ghost predicate IsChoice(selections: seq<ValueSelection>, val: string) {
    exists i :: 0 <= i < |selections| && selections[i].value == val
  }

  /** A value is legal exactly when it is a 64-bit integer for a number, a truth value for a bool, and not empty
      for a string, and is among the choices, if there are any. */
  lemma LegalExactly(v: VariableData, val: string)
    ensures Legal(v, val) <==>
      && (v.varType == "number" ==> IsInt64(val))
      && (v.varType == "bool" ==> IsTruthValue(val))
      && (v.varType == "string" ==> val != "")
      && (v.selections != [] ==> IsChoice(v.selections, val))
  {
    ParsesAsIntExactly(val);
    TypesAreApart();
  }

  lemma TypesAreApart()
    ensures NUMBER_TYPE != BOOL_TYPE && NUMBER_TYPE != STRING_TYPE && BOOL_TYPE != STRING_TYPE
  {
    assert NUMBER_TYPE[0] == 'n' && BOOL_TYPE[0] == 'b' && STRING_TYPE[0] == 's';
  }
}
