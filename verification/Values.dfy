/**
 Values as they come out of JSON, and Python's `int` of them. Text counts as an integer if it is a numeral with an
 optional sign, amid white space, where single underscores may stand between digits; floating-point numbers are
 truncated toward zero, and of the others only booleans have an `int`.
 */
module Values {
  import opened Text
  import opened Wrappers

  /** `Missing` is a field that is not there, `Counters` an object that holds integers, `Other` any other list or object. */
  datatype Value =
    | Missing
    | Null
    | Flag(b: bool)
    | Int(n: int)
    | Number(x: real)
    | Words(s: string)
    | Counters(table: map<string, int>)
    | Other

  /** Python's truth value. */
  predicate Truthy(v: Value)
  {
    match v
    case Missing => false
    case Null => false
    case Flag(b) => b
    case Int(n) => n != 0
    case Number(x) => x != 0.0
    case Words(s) => s != []
    case Counters(table) => table != map[]
    case Other => true
  }

  // ----- int(value)

  predicate IsDigit(c: char)
  {
    '0' <= c <= '9'
  }

  /** Digits, with single underscores between them. */
  predicate Numeral(s: string)
  {
    && s != [] && IsDigit(s[0]) && IsDigit(s[|s| - 1])
    && (forall k :: 0 <= k < |s| ==> IsDigit(s[k]) || s[k] == '_')
    && (forall k :: 0 < k < |s| ==> s[k - 1] == '_' ==> s[k] != '_')
  }

  function Magnitude(s: string): nat
  {
    if s == [] then 0
    else if !IsDigit(s[|s| - 1]) then Magnitude(s[..|s| - 1])
    else 10 * Magnitude(s[..|s| - 1]) + (s[|s| - 1] - '0') as nat
  }

  function ParseInt(s: string): Option<int>
  {
    var t := Strip(s);
    var signed := t != [] && (t[0] == '-' || t[0] == '+');
    var digits := if signed then t[1..] else t;
    if !Numeral(digits) then None
    else
      var n: int := Magnitude(digits);
      Some(if signed && t[0] == '-' then -n else n)
  }

  /** What is printed for an integer parses as it, with a plus sign and with white space around it too. */
  lemma PrintedIntIsParsed(n: nat, s: string)
    ensures Strip(s) == Decimal(n) ==> ParseInt(s) == Some(n)
    ensures Strip(s) == "+" + Decimal(n) ==> ParseInt(s) == Some(n)
    ensures Strip(s) == "-" + Decimal(n) ==> ParseInt(s) == Some(-(n as int))
    ensures Strip(s) in [[], "-", Decimal(n) + "_"] ==> ParseInt(s) == None
  {
    var a := Decimal(n);
    DecimalIsNumeral(n);
    DecimalMagnitude(n);
    assert ("+" + a)[1..] == a == ("-" + a)[1..];
    hide Decimal, Magnitude, Strip, Numeral;
    assert (a + "_")[0] == a[0];
    BadNumerals(a);
  }

  /** An underscore between two numerals is skipped. */
  lemma UnderscoreIsSkipped(n: nat, m: nat, s: string, t: string)
    requires Strip(s) == Decimal(n) + "_" + Decimal(m) && Strip(t) == Decimal(n) + Decimal(m)
    ensures ParseInt(s) == ParseInt(t) != None
  {
    var a, b := Decimal(n), Decimal(m);
    DecimalIsNumeral(n);
    DecimalIsNumeral(m);
    MagnitudeSkips(a, b);
    hide Decimal, Magnitude, Strip;
    assert (a + "_" + b)[0] == a[0] == (a + b)[0];
  }

  lemma DecimalIsNumeral(n: nat)
    ensures Numeral(Decimal(n)) && forall k :: 0 <= k < |Decimal(n)| ==> IsDigit(Decimal(n)[k])
  {
    DecimalIsDigits(n);
    var s := Decimal(n);
    hide Decimal;
    assert forall k :: 0 <= k < |s| ==> s[k] in s;
  }

  lemma BadNumerals(a: string)
    ensures !Numeral([]) && !Numeral(a + "_")
  {
    assert (a + "_")[|a + "_"| - 1] == '_';
  }

  lemma {:induction false} DecimalMagnitude(n: nat)
    ensures Magnitude(Decimal(n)) == n
  {
    if n >= 10 {
      DecimalMagnitude(n / 10);
      assert Decimal(n)[..|Decimal(n)| - 1] == Decimal(n / 10);
    } else {
      assert Decimal(n)[..0] == [];
    }
  }

  lemma {:induction false} MagnitudeSkips(s: string, t: string)
    ensures Magnitude(s + "_" + t) == Magnitude(s + t)
  {
    if t == [] {
      assert (s + "_" + t)[..|s|] == s == s + t;
    } else {
      var n := |t| - 1;
      MagnitudeSkips(s, t[..n]);
      assert (s + "_" + t)[..|s| + 1 + n] == s + "_" + t[..n];
      assert (s + t)[..|s| + n] == s + t[..n];
    }
  }

  function ToInt(v: Value): Option<int>
  {
    match v
    case Flag(b) => Some(if b then 1 else 0)
    case Int(n) => Some(n)
    case Number(x) => Some(if x < 0.0 then -(-x).Floor else x.Floor)
    case Words(s) => ParseInt(s)
    case _ => None
  }

  /** A float loses its fraction, whatever its sign. */
  lemma FloatsAreTruncated(x: real)
    ensures ToInt(Number(x)).Some?
    ensures var n := ToInt(Number(x)).value as real;
            if x >= 0.0 then n <= x < n + 1.0 && n >= 0.0 else n - 1.0 < x <= n && n <= 0.0
    ensures ToInt(Flag(true)) == Some(1) && ToInt(Flag(false)) == Some(0)
  {
  }
}
