/** The `main` package's configuration string: "N-N-N" gives the number
    of inputs, hidden units and outputs of the network to build, and
    anything else gives the 2-2-1 network. Splitting follows
    `strings.Split` with a one-character separator, and numbers follow
    `strconv.Atoi` on a 64-bit platform. */
module Config {
  import opened NNetSpec
  import NNet

  // ---------------------------------------------------------------------
  // strings.Split and strings.Join

  /** The number of occurrences of c in s. */
  function Count(s: string, c: char): (n: nat)
    ensures n <= |s|
    ensures n == 0 <==> c !in s
  {
    if |s| == 0 then 0 else (if s[0] == c then 1 else 0) + Count(s[1..], c)
  }

  lemma {:induction false} CountAppend(a: string, b: string, c: char)
    ensures Count(a + b, c) == Count(a, c) + Count(b, c)
  {
    if |a| > 0 {
      CountAppend(a[1..], b, c);
      assert (a + b)[1..] == a[1..] + b;
    } else {
      assert a + b == b;
    }
  }

  /** `strings.Index(s, string(c))` when c occurs in s: the position of
      its first occurrence. */
  function IndexOf(s: string, c: char): (i: nat)
    requires c in s
    ensures i < |s| && s[i] == c && c !in s[..i]
  {
    if s[0] == c then 0 else 1 + IndexOf(s[1..], c)
  }

  /** The first occurrence of c in a + [c] + b, when a does not hold c,
      is right after a. */
  lemma {:induction false} IndexOfAfter(a: string, b: string, c: char)
    requires c !in a
    ensures IndexOf(a + [c] + b, c) == |a|
  {
    if |a| > 0 {
      IndexOfAfter(a[1..], b, c);
      assert (a + [c] + b)[1..] == a[1..] + [c] + b;
    }
  }

  /** `strings.Split(s, string(sep))`: the pieces of s between the
      separators, in order, cut off one by one at the first remaining
      separator. The empty string gives one empty piece, and two adjacent
      separators an empty piece between them. */
  function Split(s: string, sep: char): (parts: seq<string>)
    ensures |parts| >= 1
    ensures forall k :: 0 <= k < |parts| ==> sep !in parts[k]
    decreases |s|
  {
    if sep !in s then [s]
    else
      var i := IndexOf(s, sep);
      [s[..i]] + Split(s[i + 1..], sep)
  }

  /** n separators give n + 1 pieces. */
  lemma {:induction false} SplitCount(s: string, sep: char)
    ensures |Split(s, sep)| == Count(s, sep) + 1
    decreases |s|
  {
    if sep in s {
      var i := IndexOf(s, sep);
      SplitCount(s[i + 1..], sep);
      CountAppend(s[..i], [sep] + s[i + 1..], sep);
      assert s == s[..i] + ([sep] + s[i + 1..]);
      assert ([sep] + s[i + 1..])[1..] == s[i + 1..];
    }
  }

  /** `strings.Join(parts, string(sep))`. */
  function Join(parts: seq<string>, sep: char): string
  {
    if |parts| == 0 then ""
    else if |parts| == 1 then parts[0]
    else parts[0] + [sep] + Join(parts[1..], sep)
  }

  /** Joining the pieces with the separator gives back the string. */
  lemma {:induction false} JoinSplit(s: string, sep: char)
    ensures Join(Split(s, sep), sep) == s
    decreases |s|
  {
    if sep in s {
      var i := IndexOf(s, sep);
      var parts := Split(s, sep);
      JoinSplit(s[i + 1..], sep);
      assert parts[1..] == Split(s[i + 1..], sep);
      assert s == s[..i] + [sep] + s[i + 1..];
    }
  }

  /** Splitting pieces joined with a separator none of them holds gives
      back the pieces. */
  lemma {:induction false} SplitJoin(parts: seq<string>, sep: char)
    requires |parts| >= 1
    requires forall k :: 0 <= k < |parts| ==> sep !in parts[k]
    ensures Split(Join(parts, sep), sep) == parts
  {
    if |parts| > 1 {
      var j := Join(parts[1..], sep);
      var s := parts[0] + [sep] + j;
      SplitJoin(parts[1..], sep);
      IndexOfAfter(parts[0], j, sep);
      assert s[..|parts[0]|] == parts[0];
      assert s[|parts[0]| + 1..] == j;
    }
  }

  // ---------------------------------------------------------------------
  // strconv.Atoi

  const MinInt64: int := -0x8000_0000_0000_0000
  const MaxInt64: int := 0x7fff_ffff_ffff_ffff

  datatype Option<T> = None | Some(value: T)

  predicate IsDigit(c: char)
  {
    '0' <= c <= '9'
  }

  predicate AllDigits(s: string)
  {
    forall k :: 0 <= k < |s| ==> IsDigit(s[k])
  }

  function DigitValue(c: char): (d: nat)
    requires IsDigit(c)
    ensures d < 10
  {
    (c - '0') as nat
  }

  function DigitChar(d: nat): (c: char)
    requires d < 10
    ensures IsDigit(c) && DigitValue(c) == d
  {
    '0' + d as char
  }

  /** The value of a string of decimal digits, most significant first. */
  function DigitsValue(s: string): (n: nat)
    requires AllDigits(s)
  {
    if |s| == 0 then 0 else 10 * DigitsValue(s[..|s| - 1]) + DigitValue(s[|s| - 1])
  }

  /** `strconv.Atoi(s)` on a 64-bit platform: an optional sign, then at
      least one decimal digit and nothing else, with a value that fits in
      an int64. The two kinds of failure Go distinguishes (syntax and
      range) are both `None`. */
  function Atoi(s: string): (r: Option<int>)
    ensures r.Some? ==> MinInt64 <= r.value <= MaxInt64
    ensures r.Some? ==> |s| >= 1 && (r.value < 0 ==> s[0] == '-')
  {
    if |s| == 0 then None
    else
      var digits := if s[0] == '-' || s[0] == '+' then s[1..] else s;
      if |digits| == 0 || !AllDigits(digits) then None
      else
        var n: int := DigitsValue(digits);
        var v := if s[0] == '-' then -n else n;
        if v < MinInt64 || MaxInt64 < v then None else Some(v)
  }

  /** The decimal digits of n, most significant first, with no leading
      zero. */
  function Digits(n: nat): (s: string)
    ensures |s| >= 1 && AllDigits(s)
  {
    if n < 10 then [DigitChar(n)] else Digits(n / 10) + [DigitChar(n % 10)]
  }

  lemma {:induction false} DigitsValueOfDigits(n: nat)
    ensures DigitsValue(Digits(n)) == n
  {
    if n >= 10 {
      DigitsValueOfDigits(n / 10);
      var s := Digits(n);
      assert s[..|s| - 1] == Digits(n / 10);
    }
  }

  /** `strconv.Itoa(n)`: the decimal form, with a minus sign when n is
      negative. */
  function Itoa(n: int): (s: string)
    ensures |s| >= 1 && '-' !in s[1..]
    ensures n >= 0 <==> '-' !in s
  {
    if n < 0 then "-" + Digits(-n) else Digits(n)
  }

  /** Every int64 survives the decimal round trip. */
  lemma AtoiItoa(n: int)
    requires MinInt64 <= n <= MaxInt64
    ensures Atoi(Itoa(n)) == Some(n)
  {
    if n < 0 {
      DigitsValueOfDigits(-n);
      assert Itoa(n)[1..] == Digits(-n);
    } else {
      DigitsValueOfDigits(n);
    }
  }

  /** A string of digits, with or without a leading '+', parses to its
      decimal value when that fits in an int64. */
  lemma AtoiOfDigits(s: string)
    requires |s| >= 1 && AllDigits(s) && DigitsValue(s) <= MaxInt64
    ensures Atoi(s) == Some(DigitsValue(s))
    ensures Atoi("+" + s) == Some(DigitsValue(s))
  {
    assert ("+" + s)[1..] == s;
  }

  // ---------------------------------------------------------------------
  // parseConfig

  /** The three layer widths of a network. */
  datatype Dims = Dims(inputs: nat, hidden: nat, outputs: nat)

  /** The network built when the configuration cannot be used. */
  const DefaultDims: Dims := Dims(2, 2, 1)

  /** Whether the fields of the configuration string are three numbers,
      and if so those numbers. A field holds no '-', so a number it parses
      to is never negative. */
  function ConfigFields(config: string): (r: Option<Dims>)
    ensures r.Some? ==> Count(config, '-') == 2
  {
    SplitCount(config, '-');
    var fields := Split(config, '-');
    if |fields| != 3 then None
    else
      var i, h, o := Atoi(fields[0]), Atoi(fields[1]), Atoi(fields[2]);
      if i.None? || h.None? || o.None? then None
      else Some(Dims(i.value, h.value, o.value))
  }

  /** The widths of the network `parseConfig(config)` builds. */
  function ConfigDims(config: string): (d: Dims)
    ensures Count(config, '-') != 2 ==> d == DefaultDims
  {
    match ConfigFields(config)
    case None => DefaultDims
    case Some(d) => d
  }

  /** "i-h-o" with the three widths written in decimal gives exactly
      those widths. */
  lemma ConfigOfDims(d: Dims)
    requires d.inputs <= MaxInt64 && d.hidden <= MaxInt64 && d.outputs <= MaxInt64
    ensures ConfigDims(Join([Itoa(d.inputs), Itoa(d.hidden), Itoa(d.outputs)], '-')) == d
  {
    var fields := [Itoa(d.inputs), Itoa(d.hidden), Itoa(d.outputs)];
    SplitJoin(fields, '-');
    AtoiItoa(d.inputs);
    AtoiItoa(d.hidden);
    AtoiItoa(d.outputs);
  }

  /** A configuration with a field that is not a number gives the default
      network, whatever the other fields hold. */
  lemma ConfigWithBadField(config: string, k: nat)
    requires k < |Split(config, '-')| && Atoi(Split(config, '-')[k]).None?
    ensures ConfigDims(config) == DefaultDims
  {
    assert ConfigFields(config).None? by {
      var fields := Split(config, '-');
      if |fields| == 3 {
        if k == 0 {
          assert Atoi(fields[0]).None?;
        } else if k == 1 {
          assert Atoi(fields[1]).None?;
        } else {
          assert Atoi(fields[2]).None?;
        }
      }
    }
  }

  /** `parseConfig(config)`: the fields are parsed in order and the first
      failure falls back to a 2-2-1 network; `rnd` stands for the random
      numbers `New` draws. */
  method ParseConfig(config: string, rnd: nat -> real) returns (net: NNet.NeuralNetwork)
    requires NonZeroDraws(rnd)
    ensures fresh(net) && net.Valid()
    ensures fresh(net.inputs) && fresh(net.inputWeights) && fresh(net.hidden) && fresh(net.hiddenThresholds)
    ensures fresh(net.hiddenWeights) && fresh(net.outputs) && fresh(net.outputThresholds)
    ensures var d := ConfigDims(config);
      net.State() == Created(d.inputs, d.hidden, d.outputs, rnd)
  {
    var confElts := Split(config, '-');
    if |confElts| != 3 {
      net := new NNet.NeuralNetwork(2, 2, 1, rnd);
      return;
    }
    var inputs := Atoi(confElts[0]);
    if inputs.None? {
      net := new NNet.NeuralNetwork(2, 2, 1, rnd);
      return;
    }
    var hidden := Atoi(confElts[1]);
    if hidden.None? {
      net := new NNet.NeuralNetwork(2, 2, 1, rnd);
      return;
    }
    var outputs := Atoi(confElts[2]);
    if outputs.None? {
      net := new NNet.NeuralNetwork(2, 2, 1, rnd);
      return;
    }
    net := new NNet.NeuralNetwork(inputs.value, hidden.value, outputs.value, rnd);
  }
}
