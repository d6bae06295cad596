/**
 The wire command sent to the servo controller: the five positions as
 decimal integers in the order Rx Ry Lx Ly Neck, separated by single
 spaces, with no terminator. Integers are rendered the way a C++ output
 stream renders an `int`: an optional minus sign, then the digits with no
 leading zero. `Decode` is the receiving side's reading of such a line; it
 is the inverse the round-trip properties are stated against.
 */
module CommandCodec {
  import opened AxisState

  datatype Option<T> = None | Some(value: T)

  /** The separator between fields. */
  const Separator := ' '

  predicate IsDigit(ch: char)
  {
    '0' <= ch <= '9'
  }

  predicate AllDigits(s: string)
  {
    forall i :: 0 <= i < |s| ==> IsDigit(s[i])
  }

  /** The character for the decimal digit `d`. */
  function DigitChar(d: nat): (ch: char)
    requires d < 10
    ensures IsDigit(ch)
    ensures ch as int - '0' as int == d
  {
    ('0' as int + d) as char
  }

  /** The value of the decimal digit `ch`. */
  function DigitValue(ch: char): (d: nat)
    requires IsDigit(ch)
    ensures d < 10 && DigitChar(d) == ch
  {
    ch as int - '0' as int
  }

  /** The decimal digits of `n`: never empty, only digits, and a leading zero
      only for zero itself. */
  function NatDigits(n: nat): (s: string)
    ensures |s| >= 1 && AllDigits(s)
    ensures s[0] == '0' <==> n == 0
    decreases n
  {
    if n < 10 then [DigitChar(n)] else NatDigits(n / 10) + [DigitChar(n % 10)]
  }

  /** The decimal rendering of `n`, as a C++ output stream writes an `int`. */
  function Render(n: int): (s: string)
    ensures |s| >= 1 && Separator !in s
    ensures n >= 0 ==> AllDigits(s) && (s[0] == '0' ==> |s| == 1)
    ensures n < 0 ==> |s| >= 2 && s[0] == '-' && AllDigits(s[1..]) && s[1] != '0'
  {
    if n < 0 then "-" + NatDigits(-n) else NatDigits(n)
  }

  /** The value of a string of decimal digits. */
  function ParseNat(s: string): nat
    requires AllDigits(s)
    decreases |s|
  {
    if |s| == 0 then 0 else 10 * ParseNat(s[..|s| - 1]) + DigitValue(s[|s| - 1])
  }

  /** The integer a field denotes: an optional minus sign and at least one digit. */
  function ParseInt(s: string): Option<int>
  {
    if |s| >= 2 && s[0] == '-' && AllDigits(s[1..]) then Some(-(ParseNat(s[1..]) as int))
    else if |s| >= 1 && AllDigits(s) then Some(ParseNat(s))
    else None
  }

  lemma {:induction false} ParseNatDigits(n: nat)
    ensures ParseNat(NatDigits(n)) == n
    decreases n
  {
    if n >= 10 {
      var s := NatDigits(n);
      assert s[..|s| - 1] == NatDigits(n / 10);
      ParseNatDigits(n / 10);
    }
  }

  /** Reading back a rendered integer gives the integer. */
  lemma ParseRender(n: int)
    ensures ParseInt(Render(n)) == Some(n)
  {
    var s := Render(n);
    if n < 0 {
      assert s[1..] == NatDigits(-n);
      ParseNatDigits(-n);
    } else {
      assert IsDigit(s[0]);
      ParseNatDigits(n);
    }
  }

  /** `s` cut at every separator: one more part than there are separators. */
  function Split(s: string): (parts: seq<string>)
    ensures |parts| >= 1
    decreases |s|
  {
    if |s| == 0 then [""]
    else
      var rest := Split(s[1..]);
      if s[0] == Separator then [""] + rest
      else [[s[0]] + rest[0]] + rest[1..]
  }

  /** How many times `ch` occurs in `s`. */
  function Occurrences(s: string, ch: char): nat
    decreases |s|
  {
    if |s| == 0 then 0 else (if s[0] == ch then 1 else 0) + Occurrences(s[1..], ch)
  }

  /** A string holds one separator fewer than the parts it splits into. */
  lemma {:induction false} SeparatorsBetweenParts(s: string)
    ensures Occurrences(s, Separator) == |Split(s)| - 1
    decreases |s|
  {
    if |s| > 0 {
      SeparatorsBetweenParts(s[1..]);
    }
  }

  /** A string with no separator is a single part. */
  lemma {:induction false} SplitWord(a: string)
    requires Separator !in a
    ensures Split(a) == [a]
    decreases |a|
  {
    if |a| > 0 {
      assert Separator !in a[1..] by {
        forall i | 0 <= i < |a[1..]|
          ensures a[1..][i] != Separator
        {
          assert a[1..][i] == a[i + 1];
        }
      }
      SplitWord(a[1..]);
      assert [a[0]] + a[1..] == a;
    }
  }

  /** Splitting a word, a separator and the rest gives the word and then the
      parts of the rest. */
  lemma {:induction false} SplitAfterWord(a: string, b: string)
    requires Separator !in a
    ensures Split(a + [Separator] + b) == [a] + Split(b)
    decreases |a|
  {
    var s := a + [Separator] + b;
    if |a| == 0 {
      assert s[1..] == b;
    } else {
      assert Separator !in a[1..] by {
        forall i | 0 <= i < |a[1..]|
          ensures a[1..][i] != Separator
        {
          assert a[1..][i] == a[i + 1];
        }
      }
      assert s[1..] == a[1..] + [Separator] + b;
      SplitAfterWord(a[1..], b);
      assert [a[0]] + a[1..] == a;
    }
  }

  /** The words `ws` with a single separator between neighbours. */
  function Join(ws: seq<string>): string
    requires |ws| >= 1
    decreases |ws|
  {
    if |ws| == 1 then ws[0] else ws[0] + [Separator] + Join(ws[1..])
  }

  /** Splitting joined words that hold no separator gives back the words. */
  lemma {:induction false} SplitJoin(ws: seq<string>)
    requires |ws| >= 1
    requires forall i :: 0 <= i < |ws| ==> Separator !in ws[i]
    ensures Split(Join(ws)) == ws
    decreases |ws|
  {
    if |ws| == 1 {
      SplitWord(ws[0]);
    } else {
      SplitJoin(ws[1..]);
      SplitAfterWord(ws[0], Join(ws[1..]));
      assert [ws[0]] + ws[1..] == ws;
    }
  }

  /** The five renderings of `a`, in wire order. */
  function Fields(a: Axes): seq<string>
  {
    [Render(a.rx), Render(a.ry), Render(a.lx), Render(a.ly), Render(a.neck)]
  }

  /** The command for positions `a`. It splits into the five renderings in
      wire order, so it holds exactly four separators. */
  function Encode(a: Axes): (cmd: string)
    ensures Split(cmd) == [Render(a.rx), Render(a.ry), Render(a.lx), Render(a.ly), Render(a.neck)]
    ensures Occurrences(cmd, Separator) == 4
  {
    var cmd := Join(Fields(a));
    SplitJoin(Fields(a));
    SeparatorsBetweenParts(cmd);
    cmd
  }

  /** The positions a command line denotes, if it is five integer fields
      separated by single spaces. */
  function Decode(cmd: string): Option<Axes>
  {
    var parts := Split(cmd);
    if |parts| != 5 then None
    else
      match (ParseInt(parts[0]), ParseInt(parts[1]), ParseInt(parts[2]), ParseInt(parts[3]), ParseInt(parts[4]))
      case (Some(rx), Some(ry), Some(lx), Some(ly), Some(neck)) => Some(Axes(rx, ry, lx, ly, neck))
      case _ => None
  }

  /** Decoding an encoded command gives back the positions. */
  lemma DecodeEncode(a: Axes)
    ensures Decode(Encode(a)) == Some(a)
  {
    ParseRender(a.rx);
    ParseRender(a.ry);
    ParseRender(a.lx);
    ParseRender(a.ly);
    ParseRender(a.neck);
  }

  /** Distinct positions give distinct commands. */
  lemma EncodeInjective(a: Axes, b: Axes)
    ensures Encode(a) == Encode(b) <==> a == b
  {
    DecodeEncode(a);
    DecodeEncode(b);
  }

  /** The wire order, on the example positions 10 20 30 40 50. */
  lemma EncodeExample()
    ensures Encode(Axes(10, 20, 30, 40, 50)) == "10 20 30 40 50"
  {
    assert NatDigits(10) == "10";
    assert NatDigits(20) == "20";
    assert NatDigits(30) == "30";
    assert NatDigits(40) == "40";
    assert NatDigits(50) == "50";
    var ws := Fields(Axes(10, 20, 30, 40, 50));
    assert ws == ["10", "20", "30", "40", "50"];
    assert Join(ws[4..]) == "50";
    assert Join(ws[3..]) == "40 50" by { assert ws[3..][1..] == ws[4..]; }
    assert Join(ws[2..]) == "30 40 50" by { assert ws[2..][1..] == ws[3..]; }
    assert Join(ws[1..]) == "20 30 40 50" by { assert ws[1..][1..] == ws[2..]; }
    assert Join(ws) == "10 20 30 40 50";
  }
}
