/** String helpers shared by the emitters: decimal rendering of a Python int,
    `sep.join(list)`, the whitespace stripping of mechlib's unit test, and the
    positional templates that `str.format` fills. */
module Texts {

  /** Decimal digits of a natural number, as Python's `"{0}".format(i)` prints an int. */
  function NatToString(n: nat): (r: string)
    ensures |r| >= 1
    ensures forall i :: 0 <= i < |r| ==> '0' <= r[i] <= '9'
    decreases n
  {
    if n < 10 then [Digit(n)] else NatToString(n / 10) + [Digit(n % 10)]
  }

  function Digit(d: nat): (c: char)
    requires d < 10
    ensures '0' <= c <= '9'
  {
    "0123456789"[d]
  }

  /** Different numbers print differently. */
  lemma {:induction false} NatToStringInjective(a: nat, b: nat)
    requires NatToString(a) == NatToString(b)
    ensures a == b
    decreases a
  {
    var sa, sb := NatToString(a), NatToString(b);
    if a < 10 && b < 10 {
      assert Digit(a) == sa[0] == sb[0] == Digit(b);
      DigitInjective(a, b);
    } else if a >= 10 && b >= 10 {
      assert sa[|sa| - 1] == sb[|sb| - 1];
      assert Digit(a % 10) == Digit(b % 10);
      DigitInjective(a % 10, b % 10);
      assert sa[..|sa| - 1] == NatToString(a / 10);
      assert sb[..|sb| - 1] == NatToString(b / 10);
      NatToStringInjective(a / 10, b / 10);
    }
  }

  lemma DigitInjective(a: nat, b: nat)
    requires a < 10 && b < 10 && Digit(a) == Digit(b)
    ensures a == b
  {
  }

  /** `sep.join(parts)`. */
  function Join(parts: seq<string>, sep: string): string {
    if |parts| == 0 then ""
    else if |parts| == 1 then parts[0]
    else parts[0] + sep + Join(parts[1..], sep)
  }

  lemma {:induction false} JoinAppend(parts: seq<string>, last: string, sep: string)
    requires |parts| >= 1
    ensures Join(parts + [last], sep) == Join(parts, sep) + sep + last
  {
    if |parts| == 1 {
      assert parts + [last] == [parts[0], last];
    } else {
      assert (parts + [last])[1..] == parts[1..] + [last];
      JoinAppend(parts[1..], last, sep);
    }
  }

  /** The text with every newline and space removed (`.replace("\n", "").replace(" ", "")`). */
  function Strip(s: string): string {
    if |s| == 0 then ""
    else if s[0] == '\n' || s[0] == ' ' then Strip(s[1..])
    else [s[0]] + Strip(s[1..])
  }

  lemma {:induction false} StripConcat(a: string, b: string)
    ensures Strip(a + b) == Strip(a) + Strip(b)
  {
    if |a| == 0 {
      assert a + b == b;
    } else {
      assert (a + b)[1..] == a[1..] + b;
      StripConcat(a[1..], b);
    }
  }

  /** Text without spaces or newlines is left as it is by `Strip`. */
  lemma {:induction false} StripKeeps(s: string)
    requires ' ' !in s && '\n' !in s
    ensures Strip(s) == s
  {
    if |s| > 0 {
      assert s == [s[0]] + s[1..];
      StripKeeps(s[1..]);
    }
  }

  lemma {:induction false} StripRemovesAll(s: string)
    ensures ' ' !in Strip(s) && '\n' !in Strip(s)
  {
    if |s| > 0 {
      StripRemovesAll(s[1..]);
    }
  }

  /** Number of occurrences of `c` in `s`. */
  function Count(s: string, c: char): nat {
    if |s| == 0 then 0 else (if s[0] == c then 1 else 0) + Count(s[1..], c)
  }

  lemma {:induction false} CountConcat(a: string, b: string, c: char)
    ensures Count(a + b, c) == Count(a, c) + Count(b, c)
  {
    if |a| == 0 {
      assert a + b == b;
    } else {
      assert (a + b)[1..] == a[1..] + b;
      CountConcat(a[1..], b, c);
    }
  }

  /** A `str.format` template, already split into literal text and positional
      slots `{k}` (the doubled braces `{{`/`}}` of the source appear here as
      literal single braces). */
  datatype Segment = Lit(text: string) | Slot(index: nat)

  type Template = seq<Segment>

  /** Every slot of the template names one of the first `n` arguments. */
  predicate SlotsBelow(t: Template, n: nat) {
    forall i :: 0 <= i < |t| ==> t[i].Slot? ==> t[i].index < n
  }

  /** `template.format(*args)`; a slot without an argument would raise IndexError. */
  function Fill(t: Template, args: seq<string>): string
    requires SlotsBelow(t, |args|)
  {
    if |t| == 0 then ""
    else (match t[0] case Lit(s) => s case Slot(k) => args[k]) + Fill(t[1..], args)
  }

  lemma FillLit(text: string, t: Template, args: seq<string>)
    requires SlotsBelow(t, |args|)
    ensures SlotsBelow([Lit(text)] + t, |args|)
    ensures Fill([Lit(text)] + t, args) == text + Fill(t, args)
  {
    assert ([Lit(text)] + t)[1..] == t;
  }

  lemma FillSlot(k: nat, t: Template, args: seq<string>)
    requires k < |args| && SlotsBelow(t, |args|)
    ensures SlotsBelow([Slot(k)] + t, |args|)
    ensures Fill([Slot(k)] + t, args) == args[k] + Fill(t, args)
  {
    assert ([Slot(k)] + t)[1..] == t;
  }

  lemma {:induction false} FillConcat(t1: Template, t2: Template, args: seq<string>)
    requires SlotsBelow(t1, |args|) && SlotsBelow(t2, |args|)
    ensures SlotsBelow(t1 + t2, |args|)
    ensures Fill(t1 + t2, args) == Fill(t1, args) + Fill(t2, args)
  {
    if |t1| > 0 {
      assert (t1 + t2)[1..] == t1[1..] + t2;
      FillConcat(t1[1..], t2, args);
    } else {
      assert t1 + t2 == t2;
    }
  }

  /** A template without slots prints the same text whatever the arguments. */
  lemma {:induction false} FillWithoutSlots(t: Template, args1: seq<string>, args2: seq<string>)
    requires SlotsBelow(t, 0)
    ensures Fill(t, args1) == Fill(t, args2)
  {
    if |t| > 0 {
      FillWithoutSlots(t[1..], args1, args2);
    }
  }
}
