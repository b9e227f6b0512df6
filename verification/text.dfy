/**
 * The JavaScript string operations the servers rely on (`includes`, `endsWith`,
 * `join('')`), and decimal rendering of natural numbers, over `seq<char>`.
 */
module Text {

  /** `s.includes(t)`: `t` occurs somewhere in `s`. */
  predicate Contains(s: string, t: string)
    decreases |s|
  {
    |t| <= |s| && (s[..|t|] == t || (|s| > 0 && Contains(s[1..], t)))
  }

  /** `s.endsWith(t)`. */
  predicate EndsWith(s: string, t: string)
  {
    |t| <= |s| && s[|s| - |t|..] == t
  }

  /** `ss.join('')`. */
  function Concat(ss: seq<string>): (r: string)
    ensures |ss| == 1 ==> r == ss[0]
  {
    if ss == [] then "" else ss[0] + Concat(ss[1..])
  }

  /** `t` occurs in `s` starting at index `i`. */
  predicate OccursAt(s: string, t: string, i: int)
  {
    0 <= i && i + |t| <= |s| && s[i..i + |t|] == t
  }

  /** The positional definition of `includes`: some window of `s` equals `t`. */
  lemma {:induction false} ContainsAt(s: string, t: string)
    ensures Contains(s, t) <==> exists i :: OccursAt(s, t, i)
    decreases |s|
  {
    if |t| <= |s| && s[..|t|] == t {
      assert OccursAt(s, t, 0);
    } else if |t| <= |s| && |s| > 0 {
      ContainsAt(s[1..], t);
      if Contains(s[1..], t) {
        var i :| OccursAt(s[1..], t, i);
        assert s[i + 1..i + 1 + |t|] == s[1..][i..i + |t|];
        assert OccursAt(s, t, i + 1);
      }
      if i :| OccursAt(s, t, i) {
        assert i != 0;
        assert s[1..][i - 1..i - 1 + |t|] == s[i..i + |t|];
        assert OccursAt(s[1..], t, i - 1);
      }
    }
  }

  /** Every character of a contained string is a character of the container. */
  lemma CharsOfContained(s: string, t: string, c: char)
    ensures Contains(s, t) && c in t ==> c in s
  {
    if Contains(s, t) && c in t {
      ContainsAt(s, t);
      var i :| OccursAt(s, t, i);
      var j :| 0 <= j < |t| && t[j] == c;
      assert s[i..i + |t|][j] == s[i + j];
    }
  }

  /** Whatever contains `t + u` contains `t`. */
  lemma {:induction false} ContainsLonger(s: string, t: string, u: string)
    requires Contains(s, t + u)
    ensures Contains(s, t)
    decreases |s|
  {
    if s[..|t + u|] == t + u {
      assert s[..|t|] == (t + u)[..|t|] == t;
    } else {
      ContainsLonger(s[1..], t, u);
    }
  }

  /** Appending text never removes an occurrence. */
  lemma {:induction false} ContainsExtend(s: string, q: string, t: string)
    requires Contains(s, t)
    ensures Contains(s + q, t)
    decreases |s|
  {
    if s[..|t|] == t {
      assert (s + q)[..|t|] == t;
    } else {
      ContainsExtend(s[1..], q, t);
      assert (s + q)[1..] == s[1..] + q;
    }
  }

  /** A string contains each of its suffixes. */
  lemma {:induction false} ContainsTail(p: string, t: string)
    ensures Contains(p + t, t)
    decreases |p|
  {
    if p == [] {
      assert (p + t)[..|t|] == t;
    } else {
      ContainsTail(p[1..], t);
      assert (p + t)[1..] == p[1..] + t;
    }
  }

  lemma EndsWithTail(p: string, t: string)
    ensures EndsWith(p + t, t)
  {
    assert (p + t)[|p + t| - |t|..] == t;
  }

  lemma ConcatAppend(a: seq<string>, b: seq<string>)
    ensures Concat(a + b) == Concat(a) + Concat(b)
    decreases |a|
  {
    if a == [] {
      assert a + b == b;
    } else {
      ConcatAppend(a[1..], b);
      assert (a + b)[1..] == a[1..] + b;
    }
  }

  /** Joining one more string appends it. */
  lemma ConcatStep(items: seq<string>, j: nat)
    requires j < |items|
    ensures Concat(items[..j + 1]) == Concat(items[..j]) + items[j]
  {
    assert items[..j + 1] == items[..j] + [items[j]];
    ConcatAppend(items[..j], [items[j]]);
  }

  /** A joined string is the strings before index `i`, the `i`th one, and those after it. */
  lemma ConcatAt(ss: seq<string>, i: nat)
    requires i < |ss|
    ensures Concat(ss) == Concat(ss[..i]) + ss[i] + Concat(ss[i + 1..])
  {
    assert ss[..i + 1] + ss[i + 1..] == ss;
    ConcatAppend(ss[..i + 1], ss[i + 1..]);
    ConcatStep(ss, i);
  }

  /** The character of a decimal digit. */
  function DigitChar(d: nat): (c: char)
    requires d < 10
    ensures '0' <= c <= '9'
  {
    ('0' as int + d) as char
  }

  /** The value of a decimal digit character. */
  function DigitValue(c: char): (d: nat)
    ensures d < 10
  {
    if '0' <= c <= '9' then c as int - '0' as int else 0
  }

  predicate IsDigits(s: string)
  {
    forall i :: 0 <= i < |s| ==> '0' <= s[i] <= '9'
  }

  /** The decimal numeral of `n`, as JavaScript renders a non-negative integer. */
  function NatToString(n: nat): (s: string)
    ensures |s| > 0 && IsDigits(s)
    ensures s[0] == '0' ==> n == 0
    decreases n
  {
    if n < 10 then [DigitChar(n)] else NatToString(n / 10) + [DigitChar(n % 10)]
  }

  /** The value of a numeral. */
  function ParseDigits(s: string): nat
  {
    if s == [] then 0 else ParseDigits(s[..|s| - 1]) * 10 + DigitValue(s[|s| - 1])
  }

  /** Numerals read back to the number they render. */
  lemma {:induction false} ParseNatToString(n: nat)
    ensures ParseDigits(NatToString(n)) == n
    decreases n
  {
    var s := NatToString(n);
    if n >= 10 {
      ParseNatToString(n / 10);
      assert s[..|s| - 1] == NatToString(n / 10);
    }
  }
}
