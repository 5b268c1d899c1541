/** Value types and the small string and number helpers that every generator script
    relies on through Python built-ins: `str(n)`, `f"{n:02d}"`, `f"{n:,}"`, `int(s)`,
    `str.lower`, `in` on strings, `str.split`, `str.strip`, `str.join`, `sum`. */
module Common {

  datatype Option<+T> = None | Some(value: T)

  /** The outcome of an operation that can raise in the source; `Err` names the exception. */
  datatype Result<+T> = Ok(value: T) | Err(error: string)

  /** A configuration entry as `dict.get` sees it: missing, present but `None`, or a string. */
  datatype ConfigValue = Absent | NoneValue | Str(s: string)

  /** Python truthiness of a configuration entry. */
  predicate Truthy(v: ConfigValue) {
    v.Str? && v.s != ""
  }

  /** `f"{v}"` of an entry that is present: `None` renders as "None". */
  function Render(v: ConfigValue): string
    requires !v.Absent?
  {
    if v.Str? then v.s else "None"
  }

  function Min(a: int, b: int): int {
    if a <= b then a else b
  }

  /** Python's `xs[:n]` for `n >= 0`. */
  function Take<T>(xs: seq<T>, n: nat): (r: seq<T>)
    ensures |r| == Min(n, |xs|)
    ensures forall i :: 0 <= i < |r| ==> r[i] == xs[i]
  {
    if n <= |xs| then xs[..n] else xs
  }

  // ------------------------------------------------------------------------
  // Decimal digits
  // ------------------------------------------------------------------------

  predicate IsDigit(c: char) {
    '0' <= c <= '9'
  }

  predicate AllDigits(s: string) {
    forall i :: 0 <= i < |s| ==> IsDigit(s[i])
  }

  /** How many digits `s` starts with: the length of what `\d+` would match there. */
  function DigitRun(s: string): (n: nat)
    ensures n <= |s| && AllDigits(s[..n]) && (n < |s| ==> !IsDigit(s[n]))
    decreases |s|
  {
    if s != [] && IsDigit(s[0]) then
      var n := 1 + DigitRun(s[1..]);
      assert s[..n] == [s[0]] + s[1..][..n - 1];
      n
    else 0
  }

  /** A run of digits followed by a non-digit is read to its end. */
  lemma {:induction false} DigitRunOf(digits: string, rest: string)
    requires AllDigits(digits)
    requires rest == [] || !IsDigit(rest[0])
    ensures DigitRun(digits + rest) == |digits|
    decreases |digits|
  {
    if digits == [] {
      assert digits + rest == rest;
    } else {
      assert (digits + rest)[1..] == digits[1..] + rest;
      DigitRunOf(digits[1..], rest);
    }
  }

  function DigitChar(d: nat): (c: char)
    requires d < 10
    ensures IsDigit(c)
  {
    ('0' as int + d) as char
  }

  function DigitValue(c: char): (d: nat)
    requires IsDigit(c)
    ensures d < 10 && DigitChar(d) == c
  {
    c as int - '0' as int
  }

  function Pow10(k: nat): (p: nat)
    ensures p >= 1
  {
    if k == 0 then 1 else 10 * Pow10(k - 1)
  }

  /** `str(n)` for a non-negative integer: no leading zero, at least one digit. */
  function NatToString(n: nat): (s: string)
    ensures |s| >= 1 && AllDigits(s)
    ensures s[0] == '0' ==> n == 0
    ensures n < 10 <==> |s| == 1
    decreases n
  {
    if n < 10 then [DigitChar(n)] else NatToString(n / 10) + [DigitChar(n % 10)]
  }

  /** `str(i)` for any integer. */
  function IntToString(i: int): (s: string)
    ensures |s| >= 1
  {
    if i < 0 then "-" + NatToString(-i) else NatToString(i)
  }

  /** `int(s)` restricted to a string of ASCII digits; the empty string reads as 0. */
  function ParseNat(s: string): nat
    requires AllDigits(s)
    decreases |s|
  {
    if s == [] then 0 else ParseNat(s[..|s| - 1]) * 10 + DigitValue(s[|s| - 1])
  }

  lemma {:induction false} ParseNatToString(n: nat)
    ensures ParseNat(NatToString(n)) == n
    decreases n
  {
    if n >= 10 {
      var s := NatToString(n);
      assert s[..|s| - 1] == NatToString(n / 10);
      ParseNatToString(n / 10);
    }
  }

  /** Appending a digit to a number written after `x` shifted by `p`. */
  lemma ShiftDecimal(x: int, p: int, y: int, d: int)
    ensures (x * p + y) * 10 + d == x * (p * 10) + (y * 10 + d)
  {
    assert (x * p + y) * 10 == x * p * 10 + y * 10;
  }

  lemma {:induction false} ParseNatAppend(a: string, b: string)
    requires AllDigits(a) && AllDigits(b)
    ensures AllDigits(a + b)
    ensures ParseNat(a + b) == ParseNat(a) * Pow10(|b|) + ParseNat(b)
    decreases |b|
  {
    assert AllDigits(a + b) by {
      forall i | 0 <= i < |a + b| ensures IsDigit((a + b)[i]) {
        if i < |a| { assert (a + b)[i] == a[i]; } else { assert (a + b)[i] == b[i - |a|]; }
      }
    }
    if b == [] {
      assert a + b == a;
    } else {
      var b' := b[..|b| - 1];
      assert (a + b)[..|a + b| - 1] == a + b';
      assert AllDigits(b');
      ParseNatAppend(a, b');
      var x, p, y, d := ParseNat(a), Pow10(|b'|), ParseNat(b'), DigitValue(b[|b| - 1]);
      assert ParseNat(a + b) == ParseNat(a + b') * 10 + d;
      assert ParseNat(b) == y * 10 + d;
      assert Pow10(|b|) == p * 10;
      ShiftDecimal(x, p, y, d);
    }
  }

  function Zeros(k: nat): (s: string)
    ensures |s| == k && AllDigits(s)
  {
    seq(k, _ => '0')
  }

  lemma {:induction false} ParseNatZeros(k: nat)
    ensures ParseNat(Zeros(k)) == 0
    decreases k
  {
    if k > 0 {
      assert Zeros(k)[..k - 1] == Zeros(k - 1);
      ParseNatZeros(k - 1);
    }
  }

  /** `f"{n:0{width}d}"`: the decimal digits of `n`, left-padded with zeros to `width`. */
  function ZeroPad(n: nat, width: nat): (s: string)
    ensures AllDigits(s) && |s| == if |NatToString(n)| <= width then width else |NatToString(n)|
    ensures ParseNat(s) == n
  {
    var digits := NatToString(n);
    var pad := if |digits| <= width then width - |digits| else 0;
    ParseNatAppend(Zeros(pad), digits);
    ParseNatZeros(pad);
    ParseNatToString(n);
    Zeros(pad) + digits
  }

  /** Width-2 padding never needs more than two characters below 100. */
  lemma ZeroPad2Length(n: nat)
    requires n < 100
    ensures |ZeroPad(n, 2)| == 2
  {
    assert n >= 10 ==> NatToString(n) == NatToString(n / 10) + [DigitChar(n % 10)];
  }

  /** `f"{n:,}"` for a non-negative integer: groups of three digits separated by commas. */
  function GroupThousands(n: nat): (s: string)
    decreases n
  {
    if n < 1000 then NatToString(n) else GroupThousands(n / 1000) + "," + ZeroPad(n % 1000, 3)
  }

  /** `f"{i:,}"` for any integer. */
  function WithCommas(i: int): string {
    if i < 0 then "-" + GroupThousands(-i) else GroupThousands(i)
  }

  /** `s` without any occurrence of `c` (what `s.replace(c, '')` returns). */
  function RemoveChar(s: string, c: char): (r: string)
    ensures c !in r
    ensures |r| <= |s|
    decreases |s|
  {
    if s == [] then [] else (if s[0] == c then [] else [s[0]]) + RemoveChar(s[1..], c)
  }

  lemma {:induction false} RemoveCharAppend(a: string, b: string, c: char)
    ensures RemoveChar(a + b, c) == RemoveChar(a, c) + RemoveChar(b, c)
    decreases |a|
  {
    if a != [] {
      assert (a + b)[1..] == a[1..] + b;
      RemoveCharAppend(a[1..], b, c);
    } else {
      assert a + b == b;
    }
  }

  lemma {:induction false} RemoveCharAbsent(s: string, c: char)
    requires c !in s
    ensures RemoveChar(s, c) == s
    decreases |s|
  {
    if s != [] {
      RemoveCharAbsent(s[1..], c);
    }
  }

  lemma NatToStringBelow1000(m: nat)
    requires m < 1000
    ensures |NatToString(m)| <= 3
  {
    if m >= 10 {
      assert NatToString(m) == NatToString(m / 10) + [DigitChar(m % 10)];
      if m / 10 >= 10 {
        assert NatToString(m / 10) == NatToString(m / 100) + [DigitChar(m / 10 % 10)];
      }
    }
  }

  lemma RemoveCommaGroup(head: string, tail: string)
    requires ',' !in tail
    ensures RemoveChar(head + "," + tail, ',') == RemoveChar(head, ',') + tail
  {
    var comma: string := [','];
    assert RemoveChar(comma, ',') == [] by {
      assert comma[1..] == [];
    }
    RemoveCharAppend(head + comma, tail, ',');
    RemoveCharAppend(head, comma, ',');
    RemoveCharAbsent(tail, ',');
    assert RemoveChar(head + comma, ',') == RemoveChar(head, ',');
  }

  /** The amount written with thousands separators reads back as the amount once the
      separators are dropped. */
  lemma {:induction false} GroupThousandsReadsBack(n: nat)
    ensures AllDigits(RemoveChar(GroupThousands(n), ','))
    ensures ParseNat(RemoveChar(GroupThousands(n), ',')) == n
    decreases n
  {
    if n < 1000 {
      RemoveCharAbsent(NatToString(n), ',');
      ParseNatToString(n);
    } else {
      var tail := ZeroPad(n % 1000, 3);
      GroupThousandsReadsBack(n / 1000);
      NatToStringBelow1000(n % 1000);
      assert |tail| == 3;
      assert ',' !in tail by { assert AllDigits(tail); }
      RemoveCommaGroup(GroupThousands(n / 1000), tail);
      var h := RemoveChar(GroupThousands(n / 1000), ',');
      assert RemoveChar(GroupThousands(n), ',') == h + tail;
      ParseNatAppend(h, tail);
      assert Pow10(3) == 1000;
      assert ParseNat(h + tail) == (n / 1000) * 1000 + n % 1000;
    }
  }

  // ------------------------------------------------------------------------
  // Text
  // ------------------------------------------------------------------------

  function LowerChar(c: char): char {
    if 'A' <= c <= 'Z' then (c as int + 32) as char else c
  }

  /** `s.lower()` on ASCII letters. */
  function Lower(s: string): (r: string)
    ensures |r| == |s| && forall i :: 0 <= i < |s| ==> r[i] == LowerChar(s[i])
  {
    seq(|s|, i requires 0 <= i < |s| => LowerChar(s[i]))
  }

  predicate StartsWith(s: string, prefix: string) {
    |prefix| <= |s| && s[..|prefix|] == prefix
  }

  /** Python's `sub in s`. */
  predicate Contains(s: string, sub: string)
    decreases |s|
  {
    StartsWith(s, sub) || (s != [] && Contains(s[1..], sub))
  }

  /** `sep.join(parts)`. */
  function Join(parts: seq<string>, sep: string): string
    decreases |parts|
  {
    if |parts| == 0 then ""
    else if |parts| == 1 then parts[0]
    else parts[0] + sep + Join(parts[1..], sep)
  }

  /** `s.split(c)` for a one-character separator: always at least one field. */
  function Split(s: string, c: char): (fields: seq<string>)
    ensures |fields| >= 1
    decreases |s|
  {
    if s == [] then [""]
    else
      var rest := Split(s[1..], c);
      if s[0] == c then [""] + rest else [[s[0]] + rest[0]] + rest[1..]
  }

  lemma {:induction false} SplitWithout(s: string, c: char)
    requires c !in s
    ensures Split(s, c) == [s]
    decreases |s|
  {
    if s != [] {
      SplitWithout(s[1..], c);
      assert [s[0]] + s[1..] == s;
    }
  }

  /** Splitting at the first separator: the field before it, then the fields of the rest. */
  lemma {:induction false} SplitAt(a: string, c: char, b: string)
    requires c !in a
    ensures Split(a + [c] + b, c) == [a] + Split(b, c)
    decreases |a|
  {
    if a == [] {
      assert a + [c] + b == [c] + b;
      assert ([c] + b)[1..] == b;
    } else {
      assert (a + [c] + b)[1..] == a[1..] + [c] + b;
      SplitAt(a[1..], c, b);
      assert [a[0]] + a[1..] == a;
    }
  }

  /** `s.lstrip(chars)`. */
  function LStrip(s: string, chars: set<char>): string
    decreases |s|
  {
    if s != [] && s[0] in chars then LStrip(s[1..], chars) else s
  }

  /** `s.rstrip(chars)`. */
  function RStrip(s: string, chars: set<char>): string
    decreases |s|
  {
    if s != [] && s[|s| - 1] in chars then RStrip(s[..|s| - 1], chars) else s
  }

  /** `s.strip(chars)`. */
  function Strip(s: string, chars: set<char>): string {
    RStrip(LStrip(s, chars), chars)
  }

  /** Stripping a delimited string whose ends are not strip characters gives back its inside. */
  lemma StripDelimited(open: char, x: string, close: char, chars: set<char>)
    requires open in chars && close in chars
    requires x != [] && x[0] !in chars && x[|x| - 1] !in chars
    ensures Strip([open] + x + [close], chars) == x
  {
    var s := [open] + x + [close];
    assert s[1..] == x + [close];
    assert LStrip(s, chars) == LStrip(x + [close], chars) == x + [close];
    assert (x + [close])[..|x + [close]| - 1] == x;
    assert RStrip(x, chars) == x;
  }

  // ------------------------------------------------------------------------
  // Sums
  // ------------------------------------------------------------------------

  /** `sum(xs)`, peeled from the end so that a loop's running total matches it. */
  function Sum(xs: seq<int>): int
    decreases |xs|
  {
    if xs == [] then 0 else Sum(xs[..|xs| - 1]) + xs[|xs| - 1]
  }

  /** The running total after one more element. */
  lemma SumStep(xs: seq<int>, k: nat)
    requires k < |xs|
    ensures Sum(xs[..k + 1]) == Sum(xs[..k]) + xs[k]
  {
    assert xs[..k + 1][..k] == xs[..k];
  }

  lemma {:induction false} SumBounds(xs: seq<int>, lo: int, hi: int)
    requires forall i :: 0 <= i < |xs| ==> lo <= xs[i] <= hi
    ensures |xs| * lo <= Sum(xs) <= |xs| * hi
    decreases |xs|
  {
    if xs != [] {
      var n := |xs| - 1;
      SumBounds(xs[..n], lo, hi);
      assert Sum(xs) == Sum(xs[..n]) + xs[n];
      assert |xs| * lo == n * lo + lo && |xs| * hi == n * hi + hi;
    }
  }

  // ------------------------------------------------------------------------
  // Steps that run in order until the first one raises
  // ------------------------------------------------------------------------

  /** The values of the steps in order, or the exception of the first step that raised. */
  function Collect<T>(rs: seq<Result<T>>): (r: Result<seq<T>>)
    ensures r.Ok? ==> |r.value| == |rs|
    decreases |rs|
  {
    if rs == [] then Ok([])
    else
      var n := |rs| - 1;
      match Collect(rs[..n])
      case Err(e) => Err(e)
      case Ok(prev) => if rs[n].Err? then Err(rs[n].error) else Ok(prev + [rs[n].value])
  }

  /** A run succeeds exactly when every step does, and then it holds every step's value
      in order. */
  lemma {:induction false} CollectMeaning<T>(rs: seq<Result<T>>)
    ensures Collect(rs).Ok? <==> forall i :: 0 <= i < |rs| ==> rs[i].Ok?
    ensures Collect(rs).Ok? ==> forall i :: 0 <= i < |rs| ==> rs[i] == Ok(Collect(rs).value[i])
    decreases |rs|
  {
    if rs != [] {
      var n := |rs| - 1;
      CollectMeaning(rs[..n]);
      assert forall i :: 0 <= i < n ==> rs[..n][i] == rs[i];
    }
  }

  /** A prefix one longer is the prefix and the next element. */
  lemma PrefixGrows<T>(s: seq<T>, n: nat)
    requires n < |s|
    ensures s[..n + 1] == s[..n] + [s[n]]
  {
  }

  /** A failed collection carries the error of one of its results. */
  lemma {:induction false} CollectErrorFrom<T>(rs: seq<Result<T>>)
    requires Collect(rs).Err?
    ensures exists k :: 0 <= k < |rs| && rs[k].Err? && rs[k].error == Collect(rs).error
    decreases |rs|
  {
    var n := |rs| - 1;
    if Collect(rs[..n]).Err? {
      CollectErrorFrom(rs[..n]);
      var k :| 0 <= k < n && rs[..n][k].Err? && rs[..n][k].error == Collect(rs[..n]).error;
      assert rs[..n][k] == rs[k];
    }
  }

  /** The exception reported is the one of the first step that raised. */
  lemma {:induction false} CollectFirstFailure<T>(rs: seq<Result<T>>, k: nat)
    requires k < |rs| && rs[k].Err?
    requires forall j :: 0 <= j < k ==> rs[j].Ok?
    ensures Collect(rs) == Err(rs[k].error)
    decreases |rs|
  {
    var n := |rs| - 1;
    if k < n {
      assert rs[..n][k] == rs[k];
      CollectFirstFailure(rs[..n], k);
    } else {
      CollectMeaning(rs[..n]);
      assert Collect(rs[..n]).Ok? by {
        forall j | 0 <= j < n ensures rs[..n][j].Ok? {
          assert rs[..n][j] == rs[j];
        }
      }
    }
  }

  /** One more step: an earlier failure stands, a success appends its value, a raise ends the run. */
  lemma CollectExtend<T>(rs: seq<Result<T>>, k: nat)
    requires k < |rs|
    ensures Collect(rs[..k]).Err? ==> Collect(rs[..k + 1]) == Collect(rs[..k])
    ensures Collect(rs[..k]).Ok? && rs[k].Ok? ==> Collect(rs[..k + 1]) == Ok(Collect(rs[..k]).value + [rs[k].value])
    ensures Collect(rs[..k]).Ok? && rs[k].Err? ==> Collect(rs[..k + 1]) == Err(rs[k].error)
  {
    assert rs[..k + 1][..k] == rs[..k];
  }

  /** A run that failed stays failed, with the same exception, however many steps follow. */
  lemma {:induction false} CollectStaysFailed<T>(rs: seq<Result<T>>, k: nat)
    requires k <= |rs| && Collect(rs[..k]).Err?
    ensures Collect(rs) == Collect(rs[..k])
    decreases |rs| - k
  {
    if k < |rs| {
      CollectExtend(rs, k);
      CollectStaysFailed(rs, k + 1);
      assert rs[..|rs|] == rs;
    } else {
      assert rs[..k] == rs;
    }
  }

  /** A run whose first `k` steps succeeded and whose step `k` raised reports that exception. */
  lemma CollectFailsAt<T>(rs: seq<Result<T>>, k: nat)
    requires k < |rs| && Collect(rs[..k]).Ok? && rs[k].Err?
    ensures Collect(rs) == Err(rs[k].error)
  {
    CollectExtend(rs, k);
    CollectStaysFailed(rs, k + 1);
  }

  // ------------------------------------------------------------------------
  // Sequence facts the solver does not find by itself cheaply
  // ------------------------------------------------------------------------

  lemma AppendAssociates<T>(a: seq<T>, b: seq<T>, c: seq<T>)
    ensures a + b + c == a + (b + c)
  {
  }

  lemma PrefixOfAppend<T>(a: seq<T>, b: seq<T>, n: nat)
    requires n <= |b|
    ensures (a + b)[..|a| + n] == a + b[..n]
  {
  }

  /** Strictly increasing positions are as many as the distinct positions they name. */
  lemma {:induction false} IncreasingCount(idx: seq<int>)
    requires forall k, l :: 0 <= k < l < |idx| ==> idx[k] < idx[l]
    ensures |set k | 0 <= k < |idx| :: idx[k]| == |idx|
  {
    if idx != [] {
      var n := |idx| - 1;
      var init := idx[..n];
      IncreasingCount(init);
      var s := set k | 0 <= k < |init| :: init[k];
      assert (set k | 0 <= k < |idx| :: idx[k]) == s + {idx[n]} by {
        forall k | 0 <= k < |init| ensures init[k] == idx[k] { }
      }
      assert idx[n] !in s;
    }
  }

  // ------------------------------------------------------------------------
  // Order-preserving filters
  // ------------------------------------------------------------------------

  /** `r` is `[o.value for o in opts if o is not None]`, position by position: `r[k]` is
      the value held at position `idx[k]`, the positions increase, and every position
      that holds a value is among them. A filter `[f(x) for x in xs if p(x)]` is this with
      `opts[i]` holding `f(xs[i])` exactly when `p(xs[i])`. */
  predicate PickedInOrder<U(==)>(opts: seq<Option<U>>, r: seq<U>, idx: seq<int>) {
    && |idx| == |r|
    && (forall k :: 0 <= k < |idx| ==> 0 <= idx[k] < |opts| && opts[idx[k]] == Some(r[k]))
    && (forall k, l :: 0 <= k < l < |idx| ==> idx[k] < idx[l])
    && (forall i :: 0 <= i < |opts| && opts[i].Some? ==> i in idx)
  }

  /** The values of a list of options, first to last. */
  function Values<U>(opts: seq<Option<U>>): (r: seq<U>)
    ensures |r| <= |opts|
    decreases |opts|
  {
    if opts == [] then []
    else
      var n := |opts| - 1;
      Values(opts[..n]) + (if opts[n].Some? then [opts[n].value] else [])
  }

  /** `Values` keeps the order of the list and repeats nothing; the positions it took the
      values from are returned. */
  lemma {:induction false} ValuesInOrder<U>(opts: seq<Option<U>>) returns (idx: seq<int>)
    ensures PickedInOrder(opts, Values(opts), idx)
    decreases |opts|
  {
    if opts != [] {
      var n := |opts| - 1;
      var inner := ValuesInOrder(opts[..n]);
      var prev := Values(opts[..n]);
      assert forall k :: 0 <= k < |inner| ==> opts[inner[k]] == opts[..n][inner[k]];
      assert forall i :: 0 <= i < n ==> opts[i] == opts[..n][i];
      if opts[n].Some? {
        idx := inner + [n];
        assert forall k :: 0 <= k < |inner| ==> idx[k] == inner[k];
      } else {
        idx := inner;
      }
    } else {
      idx := [];
    }
  }

  /** Taking one more option in front. */
  lemma ValuesCons<U>(opts: seq<Option<U>>)
    requires opts != []
    ensures Values(opts) == (if opts[0].Some? then [opts[0].value] else []) + Values(opts[1..])
    decreases |opts|
  {
    var n := |opts| - 1;
    if n > 0 {
      assert opts[1..][..n - 1] == opts[..n][1..];
      ValuesCons(opts[..n]);
      assert opts[1..][n - 1] == opts[n];
    } else {
      assert opts[1..] == [];
    }
  }

  /** A list picked in order from the options holds as many values as there are positions
      holding one. */
  lemma PickedCount<U>(opts: seq<Option<U>>, r: seq<U>, idx: seq<int>)
    requires PickedInOrder(opts, r, idx)
    ensures |r| == |set i | 0 <= i < |opts| && opts[i].Some?|
  {
    IncreasingCount(idx);
    assert (set k | 0 <= k < |idx| :: idx[k]) == set i | 0 <= i < |opts| && opts[i].Some?;
  }

  // ------------------------------------------------------------------------
  // Real arithmetic
  // ------------------------------------------------------------------------

  lemma NonNegativeProduct(a: real, b: real)
    requires a >= 0.0 && b >= 0.0
    ensures a * b >= 0.0
  {
  }
}
