/** The few pieces of JavaScript string semantics the backend and the
    screens rely on: the `\s` character class, `trim`, decimal digit runs
    read with `parseInt`, and `split`/`join` on one separator character. */
module JsText {
  import opened Wrappers

  /** The characters JavaScript's `\s` matches; `String.prototype.trim`
      strips exactly these (ECMAScript WhiteSpace and LineTerminator). */
  predicate IsSpace(c: char) {
    var n := c as int;
    n == 0x09 || n == 0x0A || n == 0x0B || n == 0x0C || n == 0x0D || n == 0x20
    || n == 0xA0 || n == 0x1680 || (0x2000 <= n <= 0x200A) || n == 0x2028
    || n == 0x2029 || n == 0x202F || n == 0x205F || n == 0x3000 || n == 0xFEFF
  }

  predicate IsDigit(c: char) { '0' <= c <= '9' }

  predicate IsAsciiLetter(c: char) { 'a' <= c <= 'z' || 'A' <= c <= 'Z' }

  predicate AllDigits(s: string) { forall i | 0 <= i < |s| :: IsDigit(s[i]) }

  predicate NoSpace(s: string) { forall i | 0 <= i < |s| :: !IsSpace(s[i]) }

  /** A non-empty run of decimal digits, as a regex group `(\d+)` captures it. */
  type Digits = s: string | |s| > 0 && AllDigits(s) witness "0"

  /** `parseInt` of a run of decimal digits (unbounded: the model has no
      53-bit precision limit). */
  function DigitsValue(s: string): nat
    requires AllDigits(s)
  {
    if s == [] then 0 else DigitsValue(s[..|s| - 1]) * 10 + (s[|s| - 1] as int - '0' as int)
  }

  /** A digit run in the form `parseInt` output would print: no leading
      zero unless it is the single digit `0`. */
  predicate Canonical(s: string) {
    |s| > 0 && AllDigits(s) && (|s| == 1 || s[0] != '0')
  }

  function Pow10(n: nat): nat {
    if n == 0 then 1 else 10 * Pow10(n - 1)
  }

  lemma {:induction false} DigitsValueBelow(s: string)
    requires AllDigits(s)
    ensures DigitsValue(s) < Pow10(|s|)
  {
    if s != [] {
      DigitsValueBelow(s[..|s| - 1]);
    }
  }

  lemma {:induction false} DigitsValueAbove(s: string)
    requires Canonical(s) && |s| >= 2
    ensures DigitsValue(s) >= Pow10(|s| - 1)
  {
    var init := s[..|s| - 1];
    if |init| >= 2 {
      DigitsValueAbove(init);
    } else {
      assert init == [s[0]];
      assert DigitsValue(init) == DigitsValue([]) * 10 + (s[0] as int - '0' as int);
    }
  }

  /** Two canonical digit runs with the same value are the same run. */
  lemma {:induction false} DigitsValueInjective(a: string, b: string)
    requires Canonical(a) && Canonical(b)
    ensures DigitsValue(a) == DigitsValue(b) ==> a == b
    decreases |a|
  {
    if |a| < |b| {
      DigitsValueBelow(a);
      DigitsValueAbove(b);
      Pow10Grows(|a|, |b| - 1);
    } else if |b| < |a| {
      DigitsValueBelow(b);
      DigitsValueAbove(a);
      Pow10Grows(|b|, |a| - 1);
    } else if |a| == 1 {
      assert DigitsValue(a) == DigitsValue([]) * 10 + (a[0] as int - '0' as int);
      assert DigitsValue(b) == DigitsValue([]) * 10 + (b[0] as int - '0' as int);
    } else {
      var ia, ib := a[..|a| - 1], b[..|b| - 1];
      assert ia[0] == a[0] && ib[0] == b[0];
      DigitsValueInjective(ia, ib);
      if DigitsValue(a) == DigitsValue(b) {
        assert a == ia + [a[|a| - 1]] && b == ib + [b[|b| - 1]];
      }
    }
  }

  lemma {:induction false} Pow10Grows(m: nat, n: nat)
    requires m <= n
    ensures Pow10(m) <= Pow10(n)
    decreases n
  {
    if m < n {
      Pow10Grows(m, n - 1);
    }
  }

  /** `s.trimStart()`: the suffix left after the leading white space. */
  function TrimStart(s: string): (r: string)
    ensures |r| <= |s| && r == s[|s| - |r|..]
    ensures r == [] || !IsSpace(r[0])
    ensures forall i | 0 <= i < |s| - |r| :: IsSpace(s[i])
  {
    if s != [] && IsSpace(s[0]) then TrimStart(s[1..]) else s
  }

  /** `s.trimEnd()`: the prefix left before the trailing white space. */
  function TrimEnd(s: string): (r: string)
    ensures |r| <= |s| && r == s[..|r|]
    ensures r == [] || !IsSpace(r[|r| - 1])
    ensures forall i | |r| <= i < |s| :: IsSpace(s[i])
  {
    if s != [] && IsSpace(s[|s| - 1]) then TrimEnd(s[..|s| - 1]) else s
  }

  /** `s.trim()`. */
  function Trim(s: string): (r: string)
    ensures |r| <= |s|
    ensures r == [] || (!IsSpace(r[0]) && !IsSpace(r[|r| - 1]))
  {
    TrimEnd(TrimStart(s))
  }

  /** A string with no white space at either end is its own trim. */
  lemma TrimmedIsFixed(s: string)
    requires s == [] || (!IsSpace(s[0]) && !IsSpace(s[|s| - 1]))
    ensures Trim(s) == s
  {
  }

  /** Leading white space does not change what `trimStart` leaves. */
  lemma {:induction false} TrimStartSkips(pre: string, x: string)
    requires forall i | 0 <= i < |pre| :: IsSpace(pre[i])
    ensures TrimStart(pre + x) == TrimStart(x)
  {
    if pre == [] {
      assert pre + x == x;
    } else {
      assert (pre + x)[0] == pre[0] && (pre + x)[1..] == pre[1..] + x;
      assert TrimStart(pre + x) == TrimStart(pre[1..] + x);
      TrimStartSkips(pre[1..], x);
    }
  }

  /** Trailing white space does not change what `trimEnd` leaves. */
  lemma {:induction false} TrimEndSkips(x: string, post: string)
    requires forall i | 0 <= i < |post| :: IsSpace(post[i])
    ensures TrimEnd(x + post) == TrimEnd(x)
  {
    if post == [] {
      assert x + post == x;
    } else {
      assert (x + post)[|x + post| - 1] == post[|post| - 1];
      assert (x + post)[..|x + post| - 1] == x + post[..|post| - 1];
      assert TrimEnd(x + post) == TrimEnd(x + post[..|post| - 1]);
      TrimEndSkips(x, post[..|post| - 1]);
    }
  }

  /** Trimming white space that surrounds a trimmed string gives that string back. */
  lemma TrimOfPadded(pre: string, t: string, post: string)
    requires forall i | 0 <= i < |pre| :: IsSpace(pre[i])
    requires forall i | 0 <= i < |post| :: IsSpace(post[i])
    requires t == [] || (!IsSpace(t[0]) && !IsSpace(t[|t| - 1]))
    ensures Trim(pre + t + post) == t
  {
    assert pre + t + post == pre + (t + post);
    TrimStartSkips(pre, t + post);
    if t == [] {
      assert t + post == [] + post;
      TrimStartSkips(post, []);
      assert post + [] == post;
    } else {
      assert TrimStart(t + post) == t + post;
      TrimEndSkips(t, post);
    }
  }

  /** The longest prefix of `s` made of digits. */
  function LeadingDigits(s: string): (r: string)
    ensures |r| <= |s| && r == s[..|r|] && AllDigits(r)
    ensures |r| == |s| || !IsDigit(s[|r|])
  {
    if s != [] && IsDigit(s[0]) then [s[0]] + LeadingDigits(s[1..]) else []
  }

  /** `s.match(/^(\d+)/)` read with `parseInt`: the number the string starts
      with, or None when its first character is not a digit. */
  function LeadingNumber(s: string): (r: Option<nat>)
    ensures r.Some? <==> (s != [] && IsDigit(s[0]))
  {
    var d := LeadingDigits(s);
    if d == [] then None else Some(DigitsValue(d))
  }

  /** `s.match(/(\d+)/)` read with `parseInt`: the first number anywhere in
      the string, or None when it holds no digit. */
  function FirstNumber(s: string): (r: Option<nat>)
    ensures r.Some? <==> exists i | 0 <= i < |s| :: IsDigit(s[i])
  {
    if s == [] then None
    else if IsDigit(s[0]) then LeadingNumber(s)
    else
      var r := FirstNumber(s[1..]);
      assert forall i | 1 <= i < |s| :: s[i] == s[1..][i - 1];
      r
  }

  /** Position of the first occurrence of `c` in `s`. */
  function IndexOf(s: string, c: char): (i: nat)
    requires c in s
    ensures i < |s| && s[i] == c && c !in s[..i]
  {
    if s[0] == c then 0 else 1 + IndexOf(s[1..], c)
  }

  /** `s.split(sep)` for a one-character separator. */
  function Split(s: string, sep: char): (parts: seq<string>)
    ensures |parts| >= 1
    ensures forall k | 0 <= k < |parts| :: sep !in parts[k]
    decreases |s|
  {
    if sep !in s then [s]
    else
      var i := IndexOf(s, sep);
      [s[..i]] + Split(s[i + 1..], sep)
  }

  /** `parts.join(sep)` for a one-character separator. */
  function Join(parts: seq<string>, sep: char): string {
    if |parts| == 0 then ""
    else if |parts| == 1 then parts[0]
    else parts[0] + [sep] + Join(parts[1..], sep)
  }

  /** Every character of a piece of a split comes from the string. */
  lemma {:induction false} SplitKeepsChars(s: string, sep: char)
    ensures forall k, c | 0 <= k < |Split(s, sep)| && c in Split(s, sep)[k] :: c in s
    decreases |s|
  {
    if sep in s {
      var i := IndexOf(s, sep);
      var rest := Split(s[i + 1..], sep);
      assert Split(s, sep) == [s[..i]] + rest;
      SplitKeepsChars(s[i + 1..], sep);
      forall k, c | 0 <= k < |rest| && c in rest[k] ensures c in s {
        assert c in s[i + 1..];
      }
    }
  }

  /** Joining one more piece adds a separator and that piece. */
  lemma {:induction false} JoinSnoc(parts: seq<string>, last: string, sep: char)
    requires |parts| >= 1
    ensures Join(parts + [last], sep) == Join(parts, sep) + [sep] + last
  {
    if |parts| > 1 {
      assert (parts + [last])[1..] == parts[1..] + [last];
      JoinSnoc(parts[1..], last, sep);
    }
  }

  /** Joining pieces between a first and a last one. */
  lemma JoinAround(first: string, parts: seq<string>, last: string, sep: char)
    requires |parts| >= 1
    ensures Join([first] + parts + [last], sep) == first + [sep] + Join(parts, sep) + [sep] + last
  {
    var all := [first] + parts + [last];
    assert all[1..] == parts + [last];
    JoinSnoc(parts, last, sep);
  }

  /** Splitting a join of pieces between a first and a last one gives all
      of them back. */
  lemma SplitAround(first: string, parts: seq<string>, last: string, sep: char)
    requires |parts| >= 1
    requires sep !in first && sep !in last
    requires forall k | 0 <= k < |parts| :: sep !in parts[k]
    ensures Split(first + [sep] + Join(parts, sep) + [sep] + last, sep) == [first] + parts + [last]
  {
    var all := [first] + parts + [last];
    assert forall k | 1 <= k < |all| - 1 :: all[k] == parts[k - 1];
    JoinAround(first, parts, last, sep);
    SplitJoin(all, sep);
  }

  /** Text between a line `{` and a line `}`. */
  lemma BracedLines(body: string)
    ensures "{" + ['\n'] + body + ['\n'] + "}" == "{\n" + body + "\n}"
  {
  }

  /** Joining the pieces of a split gives the original string back. */
  lemma {:induction false} JoinSplit(s: string, sep: char)
    ensures Join(Split(s, sep), sep) == s
    decreases |s|
  {
    if sep in s {
      var i := IndexOf(s, sep);
      var rest := Split(s[i + 1..], sep);
      var parts := [s[..i]] + rest;
      assert Split(s, sep) == parts;
      assert parts[1..] == rest;
      assert Join(parts, sep) == s[..i] + [sep] + Join(rest, sep);
      JoinSplit(s[i + 1..], sep);
      assert s == s[..i] + [sep] + s[i + 1..];
    }
  }

  /** The first separator of `a + [c] + b` is the one after `a` when `a` holds none. */
  lemma {:induction false} IndexOfAfter(a: string, c: char, b: string)
    requires c !in a
    ensures c in a + [c] + b && IndexOf(a + [c] + b, c) == |a|
  {
    var s := a + [c] + b;
    assert s[|a|] == c;
    if a != [] {
      assert s[1..] == a[1..] + [c] + b;
      IndexOfAfter(a[1..], c, b);
    }
  }

  /** A split stops at the first separator. */
  lemma SplitAfter(a: string, sep: char, b: string)
    requires sep !in a
    ensures Split(a + [sep] + b, sep) == [a] + Split(b, sep)
  {
    var s := a + [sep] + b;
    IndexOfAfter(a, sep, b);
    assert s[..|a|] == a;
    assert s[|a| + 1..] == b;
  }

  /** Splitting a join of separator-free pieces gives the pieces back. */
  lemma {:induction false} SplitJoin(parts: seq<string>, sep: char)
    requires |parts| >= 1
    requires forall k | 0 <= k < |parts| :: sep !in parts[k]
    ensures Split(Join(parts, sep), sep) == parts
  {
    if |parts| > 1 {
      var head, tail := parts[0], parts[1..];
      assert sep !in head;
      assert forall k | 0 <= k < |tail| :: tail[k] == parts[k + 1];
      SplitJoin(tail, sep);
      SplitAfter(head, sep, Join(tail, sep));
      assert parts == [head] + tail;
    }
  }
}
