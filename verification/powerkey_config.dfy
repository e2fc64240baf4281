/**
 * The power-key settings, resolved once at start-up from the key/value
 * properties of the power-key configuration file: whether the power key
 * needs a double push, the longest accepted interval between the two pushes,
 * and whether the double push suspends or shuts down the console.
 */
module PowerkeyConfig {
  import opened Wrappers
  import opened EventCodes

  /** What a completed double push of the power key does. */
  datatype PowerkeyAction = PowerkeyShutdown | PowerkeySuspend

  /** The smallest accepted interval between two pushes, in whole seconds. */
  const MIN_POWERKEY_ELAPSED: int := 1
  /** The interval bound used when the properties do not set one. */
  const DEFAULT_MAX_INTERVAL: int := 2

  /** The parsed properties file: each key with its value. */
  type Properties = map<string, string>

  // ---------------------------------------------------------------------
  // Decimal integers, as Rust's str::parse::<i64> reads them
  // ---------------------------------------------------------------------

  predicate IsDigit(c: char) {
    '0' <= c <= '9'
  }

  predicate AllDigits(s: string) {
    forall i :: 0 <= i < |s| ==> IsDigit(s[i])
  }

  /** The value of a string of decimal digits, most significant first. */
  function DigitsValue(s: string): nat
    requires AllDigits(s)
  {
    if s == [] then 0
    else DigitsValue(s[..|s| - 1]) * 10 + (s[|s| - 1] as int - '0' as int)
  }

  /**
   * Parses an i64: an optional '+' or '-', then at least one decimal digit
   * and nothing else; a value outside the i64 range is an error.
   */
  function ParseI64(s: string): (r: Option<int>)
    ensures r.Some? ==> InI64(r.value)
  {
    var negative := |s| > 0 && s[0] == '-';
    var digits := if |s| > 0 && (s[0] == '-' || s[0] == '+') then s[1..] else s;
    if digits != [] && AllDigits(digits) then
      var v: int := if negative then 0 - DigitsValue(digits) as int else DigitsValue(digits);
      if InI64(v) then Some(v) else None
    else
      None
  }

  /** The decimal digits of a natural number, without leading zeros. */
  function NatDigits(n: nat): string
    decreases n
  {
    if n < 10 then ['0' + n as char]
    else NatDigits(n / 10) + ['0' + (n % 10) as char]
  }

  /** The usual decimal spelling of an integer. */
  function Decimal(n: int): string {
    if n < 0 then "-" + NatDigits(-n) else NatDigits(n)
  }

  lemma {:induction false} NatDigitsValue(n: nat)
    ensures NatDigits(n) != [] && AllDigits(NatDigits(n))
    ensures NatDigits(n)[0] != '-' && NatDigits(n)[0] != '+'
    ensures DigitsValue(NatDigits(n)) == n
    decreases n
  {
    var s := NatDigits(n);
    if n >= 10 {
      NatDigitsValue(n / 10);
      var p := NatDigits(n / 10);
      assert s == p + ['0' + (n % 10) as char];
      assert s[..|s| - 1] == p;
    }
  }

  /** Parsing the decimal spelling of any i64 gives that i64 back. */
  lemma ParseDecimal(n: int)
    requires InI64(n)
    ensures ParseI64(Decimal(n)) == Some(n)
  {
    if n < 0 {
      NatDigitsValue(-n);
      assert Decimal(n)[1..] == NatDigits(-n);
    } else {
      NatDigitsValue(n);
    }
  }

  /** A run of k zero digits. */
  function Zeros(k: nat): string {
    seq(k, _ => '0')
  }

  function Abs(n: int): nat {
    if n < 0 then -n else n
  }

  /** The length of the optional leading sign. */
  function SignLength(s: string): (l: nat)
    ensures l <= |s|
  {
    if |s| > 0 && (s[0] == '-' || s[0] == '+') then 1 else 0
  }

  /** The signs that may precede n: none or '+' when n >= 0, '-' when n <= 0. */
  predicate SignFits(sign: string, n: int) {
    (sign == "" && n >= 0) || (sign == "+" && n >= 0) || (sign == "-" && n <= 0)
  }

  /**
   * s spells n: an optional sign that fits n, then any number of leading
   * zeros, then the digits of |n| without leading zeros.
   */
  predicate Spells(s: string, n: int) {
    var l := SignLength(s);
    var d := NatDigits(Abs(n));
    SignFits(s[..l], n) && |d| <= |s| - l && s[l..] == Zeros(|s| - l - |d|) + d
  }

  /** Leading zeros change neither digit-ness nor the value. */
  lemma {:induction false} LeadingZeros(k: nat, t: string)
    requires AllDigits(t)
    ensures AllDigits(Zeros(k) + t)
    ensures DigitsValue(Zeros(k) + t) == DigitsValue(t)
    decreases k + |t|
  {
    var z := Zeros(k) + t;
    if t == [] {
      assert z == Zeros(k);
      if k > 0 {
        LeadingZeros(k - 1, []);
        assert z[..|z| - 1] == Zeros(k - 1) + [];
      }
    } else {
      LeadingZeros(k, t[..|t| - 1]);
      assert z[..|z| - 1] == Zeros(k) + t[..|t| - 1];
    }
  }

  /** Every digit string is zeros followed by the canonical digits of its value. */
  lemma {:induction false} DigitsShape(d: string)
    requires d != [] && AllDigits(d)
    ensures |NatDigits(DigitsValue(d))| <= |d|
    ensures d == Zeros(|d| - |NatDigits(DigitsValue(d))|) + NatDigits(DigitsValue(d))
    decreases |d|
  {
    var p, c := d[..|d| - 1], d[|d| - 1];
    var cv := c as int - '0' as int;
    assert IsDigit(c);
    assert d == p + [c];
    var v := DigitsValue(d);
    assert v == DigitsValue(p) * 10 + cv;
    assert '0' + cv as char == c;
    if p == [] {
      assert NatDigits(v) == [c];
    } else {
      DigitsShape(p);
      var vp := DigitsValue(p);
      var j := |p| - |NatDigits(vp)|;
      if vp == 0 {
        assert p == Zeros(j) + "0";
        assert p == Zeros(|p|);
        assert NatDigits(v) == [c];
        assert d == Zeros(|p|) + [c];
      } else {
        assert v / 10 == vp && v % 10 == cv;
        assert NatDigits(v) == NatDigits(vp) + [c];
        assert d == Zeros(j) + (NatDigits(vp) + [c]);
      }
    }
  }

  /** Every accepted string spells the value it is read as. */
  lemma ParseI64Accepted(s: string)
    requires ParseI64(s).Some?
    ensures Spells(s, ParseI64(s).value)
  {
    var l := SignLength(s);
    var digits := s[l..];
    var negative := |s| > 0 && s[0] == '-';
    assert digits != [] && AllDigits(digits);
    var m := DigitsValue(digits);
    var n := ParseI64(s).value;
    assert n == if negative then 0 - m as int else m;
    assert Abs(n) == m;
    DigitsShape(digits);
    if negative {
      assert s[..l] == "-";
    } else if l == 1 {
      assert s[..l] == "+";
    } else {
      assert s[..l] == "";
    }
  }

  /** Every spelling of an i64 is accepted and read as that i64. */
  lemma ParseI64OfSpelling(s: string, n: int)
    requires InI64(n) && Spells(s, n)
    ensures ParseI64(s) == Some(n)
  {
    var l := SignLength(s);
    var d := NatDigits(Abs(n));
    var digits := s[l..];
    NatDigitsValue(Abs(n));
    LeadingZeros(|s| - l - |d|, d);
    assert digits != [] && AllDigits(digits);
    assert DigitsValue(digits) == Abs(n);
    var negative := |s| > 0 && s[0] == '-';
    if negative {
      assert s[..l] == "-";
    } else {
      assert s[..l] != "-";
    }
  }

  /**
   * The strings the parser accepts are exactly the spellings of i64 values,
   * and each is read as the value it spells.
   */
  lemma ParseI64Spelling(s: string, n: int)
    ensures ParseI64(s) == Some(n) <==> InI64(n) && Spells(s, n)
  {
    if ParseI64(s) == Some(n) {
      ParseI64Accepted(s);
    }
    if InI64(n) && Spells(s, n) {
      ParseI64OfSpelling(s, n);
    }
  }

  /** A sign or leading zeros are accepted; a blank, a bare sign or nothing is not. */
  lemma ParseI64Examples()
    ensures ParseI64("+7") == Some(7) && ParseI64("007") == Some(7) && ParseI64("-0") == Some(0)
    ensures ParseI64(" 5") == None && ParseI64("+") == None && ParseI64("") == None
  {
    assert "+7"[1..] == "7" && "7"[..0] == [];
    assert "007"[..2] == "00" && "00"[..1] == "0";
    assert "-0"[1..] == "0";
  }

  // ---------------------------------------------------------------------
  // The three settings
  // ---------------------------------------------------------------------

  /** Double push is on exactly when two_push_shutdown is "enabled". */
  function DoublePushActive(props: Properties): (active: bool)
    ensures active <==> "two_push_shutdown" in props && props["two_push_shutdown"] == "enabled"
  {
    if |props| != 0 then
      if "two_push_shutdown" in props then props["two_push_shutdown"] == "enabled"
      else false
    else
      false
  }

  /** The start-up resolution panics unless a present max_interval_time parses. */
  predicate ValidProperties(props: Properties) {
    "max_interval_time" in props ==> ParseI64(props["max_interval_time"]).Some?
  }

  /**
   * The longest accepted interval in seconds: the configured
   * max_interval_time plus the minimum interval (i64 addition, wrapping), or
   * 2 when it is not configured.
   */
  function MaxIntervalTime(props: Properties): (m: int)
    requires ValidProperties(props)
    ensures InI64(m)
    ensures "max_interval_time" !in props ==> m == DEFAULT_MAX_INTERVAL
    ensures "max_interval_time" in props ==>
              m == WrapI64(ParseI64(props["max_interval_time"]).value + MIN_POWERKEY_ELAPSED)
  {
    if |props| != 0 then
      if "max_interval_time" in props then
        WrapI64(ParseI64(props["max_interval_time"]).value + MIN_POWERKEY_ELAPSED)
      else
        DEFAULT_MAX_INTERVAL
    else
      DEFAULT_MAX_INTERVAL
  }

  /** A configured interval of n seconds below the i64 maximum gives n + 1. */
  lemma MaxIntervalOfDecimal(props: Properties, n: int)
    requires InI64(n) && n < I64_MAX
    requires "max_interval_time" in props && props["max_interval_time"] == Decimal(n)
    ensures ValidProperties(props)
    ensures MaxIntervalTime(props) == n + 1
  {
    ParseDecimal(n);
  }

  /** The double push suspends exactly when action is "suspend". */
  function PowerkeyActionOf(props: Properties): (a: PowerkeyAction)
    ensures a == PowerkeySuspend <==> "action" in props && props["action"] == "suspend"
  {
    if |props| != 0 then
      if "action" in props then
        if props["action"] == "suspend" then PowerkeySuspend else PowerkeyShutdown
      else
        PowerkeyShutdown
    else
      PowerkeyShutdown
  }

  /** The resolved power-key settings. */
  datatype Config = Config(doublePush: bool, maxInterval: int, action: PowerkeyAction)

  function ConfigOf(props: Properties): (c: Config)
    requires ValidProperties(props)
    ensures c.doublePush <==> "two_push_shutdown" in props && props["two_push_shutdown"] == "enabled"
    ensures c.maxInterval == if "max_interval_time" in props
                             then WrapI64(ParseI64(props["max_interval_time"]).value + MIN_POWERKEY_ELAPSED)
                             else DEFAULT_MAX_INTERVAL
    ensures c.action == PowerkeySuspend <==> "action" in props && props["action"] == "suspend"
  {
    Config(DoublePushActive(props), MaxIntervalTime(props), PowerkeyActionOf(props))
  }

  /** Without a properties file every setting takes its default. */
  lemma DefaultConfig()
    ensures ValidProperties(map[])
    ensures ConfigOf(map[]) == Config(false, DEFAULT_MAX_INTERVAL, PowerkeyShutdown)
  {
  }
}
