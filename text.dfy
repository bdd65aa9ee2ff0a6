/**
  Go's `strings.Split`, `strings.Join`, `bytes.Split` on a one-character
  separator, and `%d` formatting, as functions on strings, with the facts the
  rest of the model relies on: splitting never yields an empty list, joining the
  pieces gives the input back, and splitting a join gives the pieces back.
  A Go string or byte slice is a `seq<char>` here, one element per byte.
*/
module Text {

  /** `strings.Split(s, string(sep))`: the pieces between occurrences of `sep`. */
  function Split(s: string, sep: char): (parts: seq<string>)
    ensures |parts| >= 1
    ensures forall i :: 0 <= i < |parts| ==> sep !in parts[i]
    decreases |s|
  {
    if |s| == 0 then [""]
    else
      var rest := Split(s[1..], sep);
      if s[0] == sep then [""] + rest
      else [[s[0]] + rest[0]] + rest[1..]
  }

  /** `strings.Join(parts, string(sep))`: nothing for no parts, and the first part opens the result. */
  function Join(parts: seq<string>, sep: char): (r: string)
    ensures |parts| == 0 ==> r == ""
    ensures |parts| > 0 ==> parts[0] <= r
  {
    if |parts| == 0 then ""
    else if |parts| == 1 then parts[0]
    else parts[0] + [sep] + Join(parts[1..], sep)
  }

  /** Number of occurrences of `c` in `s` (`strings.Count`). */
  function Count(s: string, c: char): nat
  {
    if |s| == 0 then 0 else (if s[0] == c then 1 else 0) + Count(s[1..], c)
  }

  /** The pieces written one after another (what a builder or writer accumulates). */
  function Concat(pieces: seq<string>): string
  {
    if |pieces| == 0 then "" else Concat(pieces[..|pieces| - 1]) + pieces[|pieces| - 1]
  }

  lemma ConcatAppend(pieces: seq<string>, p: string)
    ensures Concat(pieces + [p]) == Concat(pieces) + p
  {
    assert (pieces + [p])[..|pieces|] == pieces;
  }

  lemma {:induction false} ConcatSplitAt(a: seq<string>, b: seq<string>)
    ensures Concat(a + b) == Concat(a) + Concat(b)
    decreases |b|
  {
    if |b| == 0 {
      assert a + b == a;
    } else {
      var b' := b[..|b| - 1];
      assert a + b == (a + b') + [b[|b| - 1]];
      assert b == b' + [b[|b| - 1]];
      ConcatSplitAt(a, b');
      ConcatAppend(a + b', b[|b| - 1]);
      ConcatAppend(b', b[|b| - 1]);
    }
  }

  /** Joining what `Split` produced restores the original string. */
  lemma {:induction false} JoinSplit(s: string, sep: char)
    ensures Join(Split(s, sep), sep) == s
    decreases |s|
  {
    if |s| > 0 {
      var rest := Split(s[1..], sep);
      JoinSplit(s[1..], sep);
      if s[0] == sep {
        assert Split(s, sep) == [""] + rest;
        assert ([""] + rest)[1..] == rest;
      } else {
        var parts := [[s[0]] + rest[0]] + rest[1..];
        assert Split(s, sep) == parts;
        if |rest| == 1 {
          assert Join(rest, sep) == rest[0];
        } else {
          assert parts[1..] == rest[1..];
          assert Join(rest, sep) == rest[0] + [sep] + Join(rest[1..], sep);
        }
      }
    }
  }

  /** A string free of the separator splits into itself alone. */
  lemma {:induction false} SplitNoSeparator(x: string, sep: char)
    requires sep !in x
    ensures Split(x, sep) == [x]
    decreases |x|
  {
    if |x| > 0 {
      SplitNoSeparator(x[1..], sep);
      assert [x[0]] + x[1..] == x;
    }
  }

  /** Splitting `x + sep + t` where `x` holds no separator peels off `x`. */
  lemma {:induction false} SplitCons(x: string, t: string, sep: char)
    requires sep !in x
    ensures Split(x + [sep] + t, sep) == [x] + Split(t, sep)
    decreases |x|
  {
    var s := x + [sep] + t;
    if |x| == 0 {
      assert s[0] == sep && s[1..] == t;
    } else {
      assert s[0] == x[0] && s[1..] == x[1..] + [sep] + t;
      SplitCons(x[1..], t, sep);
      var rest := Split(s[1..], sep);
      assert rest == [x[1..]] + Split(t, sep);
      assert [x[0]] + x[1..] == x;
      assert Split(s, sep) == [[x[0]] + rest[0]] + rest[1..];
    }
  }

  /** Joining one more piece adds the separator and the piece at the end. */
  lemma {:induction false} JoinSnoc(parts: seq<string>, x: string, sep: char)
    requires |parts| >= 1
    ensures Join(parts + [x], sep) == Join(parts, sep) + [sep] + x
    decreases |parts|
  {
    if |parts| > 1 {
      assert (parts + [x])[1..] == parts[1..] + [x];
      JoinSnoc(parts[1..], x, sep);
    }
  }

  /** Splitting a join of separator-free pieces gives the pieces back. */
  lemma {:induction false} SplitJoin(parts: seq<string>, sep: char)
    requires |parts| >= 1
    requires forall i :: 0 <= i < |parts| ==> sep !in parts[i]
    ensures Split(Join(parts, sep), sep) == parts
    decreases |parts|
  {
    if |parts| == 1 {
      SplitNoSeparator(parts[0], sep);
    } else {
      SplitJoin(parts[1..], sep);
      SplitCons(parts[0], Join(parts[1..], sep), sep);
      assert [parts[0]] + parts[1..] == parts;
    }
  }

  /** `Split` yields one more piece than there are separators. */
  lemma {:induction false} SplitCount(s: string, sep: char)
    ensures |Split(s, sep)| == Count(s, sep) + 1
    decreases |s|
  {
    if |s| > 0 {
      SplitCount(s[1..], sep);
    }
  }

  /** Each piece followed by the separator: what a writer emits when it ends every piece with `sep`. */
  function Terminated(parts: seq<string>, sep: char): string
  {
    if |parts| == 0 then "" else Terminated(parts[..|parts| - 1], sep) + parts[|parts| - 1] + [sep]
  }

  lemma {:induction false} TerminatedConcat(a: seq<string>, b: seq<string>, sep: char)
    ensures Terminated(a + b, sep) == Terminated(a, sep) + Terminated(b, sep)
    decreases |b|
  {
    if |b| == 0 {
      assert a + b == a;
    } else {
      var b' := b[..|b| - 1];
      assert (a + b)[..|a + b| - 1] == a + b';
      TerminatedConcat(a, b', sep);
    }
  }

  /** Splitting separator-free pieces, each followed by the separator, gives the pieces and then the empty remainder. */
  lemma {:induction false} SplitTerminated(parts: seq<string>, sep: char)
    requires forall i :: 0 <= i < |parts| ==> sep !in parts[i]
    ensures Split(Terminated(parts, sep), sep) == parts + [""]
    decreases |parts|
  {
    if |parts| > 0 {
      var rest := parts[1..];
      assert parts == [parts[0]] + rest;
      TerminatedConcat([parts[0]], rest, sep);
      assert Terminated([parts[0]], sep) == parts[0] + [sep] by {
        assert [parts[0]][..0] == [];
      }
      SplitCons(parts[0], Terminated(rest, sep), sep);
      SplitTerminated(rest, sep);
    }
  }

  /** A join is the terminated list of all pieces but the last, followed by the last. */
  lemma {:induction false} JoinAsTerminated(parts: seq<string>, sep: char)
    requires |parts| >= 1
    ensures Join(parts, sep) == Terminated(parts[..|parts| - 1], sep) + parts[|parts| - 1]
    decreases |parts|
  {
    if |parts| > 1 {
      var rest := parts[1..];
      JoinAsTerminated(rest, sep);
      assert parts[..|parts| - 1] == [parts[0]] + rest[..|rest| - 1];
      TerminatedConcat([parts[0]], rest[..|rest| - 1], sep);
      assert Terminated([parts[0]], sep) == parts[0] + [sep] by {
        assert [parts[0]][..0] == [];
      }
    }
  }

  // ---------------------------------------------------------------------
  // Decimal formatting (`%d`)

  function DigitChar(d: nat): (c: char)
    requires d < 10
    ensures '0' <= c <= '9'
  {
    ['0', '1', '2', '3', '4', '5', '6', '7', '8', '9'][d]
  }

  /** The decimal digits of `n`, most significant first, without leading zeros. */
  function NatDecimal(n: nat): (s: string)
    ensures |s| >= 1
    ensures forall i :: 0 <= i < |s| ==> '0' <= s[i] <= '9'
    decreases n
  {
    if n < 10 then [DigitChar(n)] else NatDecimal(n / 10) + [DigitChar(n % 10)]
  }

  /** `fmt.Sprintf("%d", i)`. */
  function IntDecimal(i: int): string
  {
    if i < 0 then "-" + NatDecimal(-i) else NatDecimal(i)
  }

  /** The value of a string of decimal digits (the reading side of `%d`). */
  function DecimalValue(s: string): nat
    requires forall i :: 0 <= i < |s| ==> '0' <= s[i] <= '9'
  {
    if |s| == 0 then 0
    else 10 * DecimalValue(s[..|s| - 1]) + ((s[|s| - 1] as int) - ('0' as int))
  }

  lemma DigitCharValue(d: nat)
    requires d < 10
    ensures (DigitChar(d) as int) - ('0' as int) == d
  {
  }

  /** Reading back the digits that `NatDecimal` wrote gives the number. */
  lemma {:induction false} DecimalRoundTrip(n: nat)
    ensures DecimalValue(NatDecimal(n)) == n
    decreases n
  {
    var s := NatDecimal(n);
    if n < 10 {
      DigitCharValue(n);
    } else {
      DecimalRoundTrip(n / 10);
      DigitCharValue(n % 10);
      assert s[..|s| - 1] == NatDecimal(n / 10);
    }
  }
}
