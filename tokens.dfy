/**
 * The text the engine receives (dominion.py): the command messages of the
 * turn loop, split on ':', and the answers handed to a suspended card
 * effect, split on ' ' into card positions that Python's `int()` reads.
 */
module Tokens {
  import opened Optional

  /** The reversal of a list (Python's `[::-1]`), for strings and lists alike. */
  function Reverse<T>(s: seq<T>): (r: seq<T>)
    ensures |r| == |s|
    ensures forall i :: 0 <= i < |s| ==> r[i] == s[|s| - 1 - i]
  {
    if s == [] then [] else [s[|s| - 1]] + Reverse(s[..|s| - 1])
  }

  lemma {:induction false} ReverseReverse<T>(s: seq<T>)
    ensures Reverse(Reverse(s)) == s
  {
    var r := Reverse(Reverse(s));
    assert |r| == |s|;
    forall i | 0 <= i < |s|
      ensures r[i] == s[i]
    {
      assert r[i] == Reverse(s)[|s| - 1 - i];
    }
  }

  /**
   * `s.split(sep)`: the pieces between the separators, in order. An empty
   * string gives a single empty piece; no piece holds a separator.
   */
  function Split(s: string, sep: char): (r: seq<string>)
    ensures |r| >= 1
    ensures forall i :: 0 <= i < |r| ==> sep !in r[i]
  {
    if s == [] then [""]
    else
      var front := Split(s[..|s| - 1], sep);
      var c := s[|s| - 1];
      if c == sep then front + [""]
      else front[..|front| - 1] + [front[|front| - 1] + [c]]
  }

  /** `sep.join(pieces)`. */
  function Join(pieces: seq<string>, sep: char): string
    requires |pieces| >= 1
  {
    if |pieces| == 1 then pieces[0]
    else Join(pieces[..|pieces| - 1], sep) + [sep] + pieces[|pieces| - 1]
  }

  /** Splitting and joining back gives the original text. */
  lemma {:induction false} JoinSplit(s: string, sep: char)
    ensures Join(Split(s, sep), sep) == s
  {
    if s != [] {
      var p := s[..|s| - 1];
      var c := s[|s| - 1];
      var front := Split(p, sep);
      JoinSplit(p, sep);
      assert s == p + [c];
      if c == sep {
        JoinNewPiece(front, sep);
      } else {
        JoinExtendLast(front, sep, c);
      }
    }
  }

  lemma {:induction false} JoinNewPiece(pieces: seq<string>, sep: char)
    requires |pieces| >= 1
    ensures Join(pieces + [""], sep) == Join(pieces, sep) + [sep]
  {
    var q := pieces + [""];
    assert q[..|q| - 1] == pieces;
  }

  lemma {:induction false} JoinExtendLast(pieces: seq<string>, sep: char, c: char)
    requires |pieces| >= 1
    ensures Join(pieces[..|pieces| - 1] + [pieces[|pieces| - 1] + [c]], sep) == Join(pieces, sep) + [c]
  {
    var q := pieces[..|pieces| - 1] + [pieces[|pieces| - 1] + [c]];
    if |pieces| > 1 {
      assert q[..|q| - 1] == pieces[..|pieces| - 1];
    }
  }

  /** Splitting a piece with no separator in it gives the piece itself. */
  lemma {:induction false} SplitPlain(s: string, sep: char)
    requires sep !in s
    ensures Split(s, sep) == [s]
  {
    if s != [] {
      var p := s[..|s| - 1];
      assert sep !in p by {
        forall i | 0 <= i < |p|
          ensures p[i] != sep
        {
          assert p[i] == s[i];
        }
      }
      SplitPlain(p, sep);
      assert s == p + [s[|s| - 1]];
    }
  }

  /** Splitting `t + [sep] + piece` gives the pieces of `t` and then the piece. */
  lemma {:induction false} SplitAppend(t: string, sep: char, piece: string)
    requires sep !in piece
    ensures Split(t + [sep] + piece, sep) == Split(t, sep) + [piece]
    decreases |piece|
  {
    if piece == [] {
      assert t + [sep] + piece == t + [sep];
      assert (t + [sep])[..|t|] == t;
    } else {
      var q := piece[..|piece| - 1];
      var c := piece[|piece| - 1];
      assert sep !in q by {
        forall i | 0 <= i < |q|
          ensures q[i] != sep
        {
          assert q[i] == piece[i];
        }
      }
      SplitAppend(t, sep, q);
      var s := t + [sep] + piece;
      assert s[..|s| - 1] == t + [sep] + q;
      assert s[|s| - 1] == c && c != sep;
      assert q + [c] == piece;
    }
  }

  /** Joining pieces free of the separator and splitting again gives the pieces back. */
  lemma {:induction false} SplitJoin(pieces: seq<string>, sep: char)
    requires |pieces| >= 1
    requires forall i :: 0 <= i < |pieces| ==> sep !in pieces[i]
    ensures Split(Join(pieces, sep), sep) == pieces
  {
    if |pieces| == 1 {
      SplitPlain(pieces[0], sep);
    } else {
      var front := pieces[..|pieces| - 1];
      SplitJoin(front, sep);
      SplitAppend(Join(front, sep), sep, pieces[|pieces| - 1]);
      assert front + [pieces[|pieces| - 1]] == pieces;
    }
  }

  /**
   * `s.split(sep, 1)`: the text before the first separator and the text
   * after it, or the whole text alone when it holds no separator.
   */
  function SplitOnce(s: string, sep: char): (r: seq<string>)
    ensures |r| == 1 <==> sep !in s
    ensures |r| == 1 ==> r[0] == s
    ensures |r| != 1 ==> |r| == 2 && sep !in r[0] && s == r[0] + [sep] + r[1]
  {
    if s == [] then [s]
    else if s[0] == sep then
      assert s == [] + [sep] + s[1..];
      ["", s[1..]]
    else
      var rest := SplitOnce(s[1..], sep);
      if |rest| == 1 then
        assert s == [s[0]] + s[1..];
        [s]
      else
        assert s == [s[0]] + s[1..];
        [[s[0]] + rest[0], rest[1]]
  }

  predicate IsDigit(c: char)
  {
    '0' <= c <= '9'
  }

  function DigitValue(c: char): nat
    requires IsDigit(c)
  {
    (c as int - '0' as int) as nat
  }

  function DigitChar(d: nat): (c: char)
    requires d < 10
    ensures IsDigit(c) && DigitValue(c) == d
  {
    ('0' as int + d) as char
  }

  /** The number a run of decimal digits denotes (leading zeros allowed). */
  function DigitsValue(s: string): nat
    requires forall i :: 0 <= i < |s| ==> IsDigit(s[i])
  {
    if s == [] then 0 else 10 * DigitsValue(s[..|s| - 1]) + DigitValue(s[|s| - 1])
  }

  predicate AllDigits(s: string)
  {
    forall i :: 0 <= i < |s| ==> IsDigit(s[i])
  }

  /** The ASCII characters `int()` takes for white space around a number. */
  predicate IsSpace(c: char)
  {
    c == ' ' || 9 <= c as int <= 13 || 28 <= c as int <= 31
  }

  predicate AllSpace(s: string)
  {
    forall i :: 0 <= i < |s| ==> IsSpace(s[i])
  }

  /** `s` without its leading white space. */
  function TrimLeft(s: string): (r: string)
    ensures |r| <= |s|
  {
    if s == [] || !IsSpace(s[0]) then s else TrimLeft(s[1..])
  }

  /** `s` without its trailing white space. */
  function TrimRight(s: string): (r: string)
    ensures |r| <= |s|
  {
    if s == [] || !IsSpace(s[|s| - 1]) then s else TrimRight(s[..|s| - 1])
  }

  /** `s.strip()` restricted to ASCII white space. */
  function Strip(s: string): string
  {
    TrimRight(TrimLeft(s))
  }

  /** No two underscores stand next to each other. */
  predicate SingleUnderscores(s: string)
    decreases |s|
  {
    |s| < 2 || ((s[0] != '_' || s[1] != '_') && SingleUnderscores(s[1..]))
  }

  /**
   * Digits in groups: it starts and ends with a digit, and every
   * underscore sits between two digits (Python's `1_000`).
   */
  predicate Grouped(s: string)
  {
    s != [] && IsDigit(s[0]) && IsDigit(s[|s| - 1]) &&
    (forall i :: 0 <= i < |s| ==> IsDigit(s[i]) || s[i] == '_') &&
    SingleUnderscores(s)
  }

  /** Plain digits are one group. */
  lemma {:induction false} AllDigitsGrouped(s: string)
    requires s != [] && AllDigits(s)
    ensures Grouped(s)
    decreases |s|
  {
    if |s| >= 2 {
      AllDigitsGrouped(s[1..]);
    }
  }

  /** The digits of `s` with the underscores left out. */
  function Ungroup(s: string): (r: string)
    ensures (forall i :: 0 <= i < |s| ==> IsDigit(s[i]) || s[i] == '_') ==> AllDigits(r)
    ensures AllDigits(s) ==> r == s
  {
    if s == [] then []
    else (if s[0] == '_' then [] else [s[0]]) + Ungroup(s[1..])
  }

  /** The value of a non-empty run of grouped digits. */
  function GroupValue(s: string): (n: nat)
    requires Grouped(s)
    ensures AllDigits(s) ==> n == DigitsValue(s)
  {
    var d := Ungroup(s);
    assert AllDigits(d);
    DigitsValue(d)
  }

  /** `int()` on text with no white space around it: an optional sign and digits in groups. */
  function ParseNumber(t: string): (r: Option<int>)
    ensures r.Some? <==> Grouped(t) || (t != [] && (t[0] == '-' || t[0] == '+') && Grouped(t[1..]))
  {
    if t == [] then None
    else if t[0] == '-' || t[0] == '+' then
      var digits := t[1..];
      if Grouped(digits) then
        Some(if t[0] == '-' then -(GroupValue(digits) as int) else GroupValue(digits))
      else None
    else if Grouped(t) then Some(GroupValue(t))
    else None
  }

  /**
   * Python's `int()` on a string in base 10: white space around it is
   * ignored, and the rest must be a number; anything else raises
   * ValueError, here None.
   */
  function ParseInt(s: string): (r: Option<int>)
    ensures
      var t := Strip(s);
      r.Some? <==> Grouped(t) || (t != [] && (t[0] == '-' || t[0] == '+') && Grouped(t[1..]))
  {
    ParseNumber(Strip(s))
  }

  /** Digits in groups read as their value, and with a minus sign as its negation. */
  lemma ParseGrouped(s: string)
    requires Grouped(s)
    ensures ParseNumber(s) == Some(GroupValue(s) as int)
    ensures ParseNumber("-" + s) == Some(-(GroupValue(s) as int))
  {
    var m := "-" + s;
    assert m[0] == '-' && m[1..] == s;
  }

  /** Plain digits read as their decimal value. */
  lemma ParseDigits(s: string)
    requires s != [] && AllDigits(s)
    ensures ParseInt(s) == Some(DigitsValue(s) as int)
  {
    AllDigitsGrouped(s);
    ParseGrouped(s);
    StripBare(s);
  }

  /** Digits in groups after a minus sign read as the negated value. */
  lemma ParseNegated(s: string)
    requires Grouped(s)
    ensures ParseInt("-" + s) == Some(-(GroupValue(s) as int))
  {
    ParseGrouped(s);
    StripBare("-" + s);
  }

  /** Text that neither starts nor ends with white space is left as it is. */
  lemma StripBare(s: string)
    requires s != [] && !IsSpace(s[0]) && !IsSpace(s[|s| - 1])
    ensures Strip(s) == s
  {
  }

  /** White space in front of a number does not change what `int()` reads. */
  lemma {:induction false} TrimLeftPadded(ws: string, s: string)
    requires AllSpace(ws)
    ensures TrimLeft(ws + s) == TrimLeft(s)
    decreases |ws|
  {
    if ws != [] {
      assert (ws + s)[1..] == ws[1..] + s;
      TrimLeftPadded(ws[1..], s);
    } else {
      assert ws + s == s;
    }
  }

  /** White space after a number does not change what `int()` reads. */
  lemma {:induction false} TrimRightPadded(s: string, ws: string)
    requires AllSpace(ws)
    ensures TrimRight(s + ws) == TrimRight(s)
    decreases |ws|
  {
    if ws != [] {
      assert (s + ws)[..|s + ws| - 1] == s + ws[..|ws| - 1];
      TrimRightPadded(s, ws[..|ws| - 1]);
    } else {
      assert s + ws == s;
    }
  }

  /** Trailing white space survives the left trim unless nothing else is there. */
  lemma {:induction false} TrimLeftThenPad(s: string, ws: string)
    requires AllSpace(ws)
    ensures TrimLeft(s + ws) == if TrimLeft(s) == [] then [] else TrimLeft(s) + ws
    decreases |s|
  {
    if s == [] {
      assert s + ws == ws;
      TrimLeftPadded(ws, []);
      assert ws + [] == ws;
    } else if !IsSpace(s[0]) {
    } else {
      assert (s + ws)[1..] == s[1..] + ws;
      TrimLeftThenPad(s[1..], ws);
    }
  }

  /** `int()` reads a number the same with white space on either side. */
  lemma ParsePadded(left: string, s: string, right: string)
    requires AllSpace(left) && AllSpace(right)
    ensures ParseInt(left + s + right) == ParseInt(s)
  {
    TrimLeftPadded(left, s + right);
    assert left + s + right == left + (s + right);
    TrimLeftThenPad(s, right);
    if TrimLeft(s) != [] {
      TrimRightPadded(TrimLeft(s), right);
    }
    assert Strip(left + s + right) == Strip(s);
  }

  /** The decimal digits of a natural number, without leading zeros. */
  function ShowNat(n: nat): (s: string)
    ensures s != [] && AllDigits(s)
  {
    if n < 10 then [DigitChar(n)] else ShowNat(n / 10) + [DigitChar(n % 10)]
  }

  /** `str(n)`. */
  function Show(n: int): string
  {
    if n < 0 then "-" + ShowNat(-n) else ShowNat(n)
  }

  lemma {:induction false} ShowNatValue(n: nat)
    ensures DigitsValue(ShowNat(n)) == n
  {
    if n >= 10 {
      ShowNatValue(n / 10);
      var s := ShowNat(n);
      assert s[..|s| - 1] == ShowNat(n / 10);
    }
  }

  /** Reading back a printed number gives the number. */
  lemma ParseShow(n: int)
    ensures ParseInt(Show(n)) == Some(n)
  {
    if n < 0 {
      ShowNatValue(-n);
      AllDigitsGrouped(ShowNat(-n));
      ParseNegated(ShowNat(-n));
    } else {
      ShowNatValue(n);
      ParseDigits(ShowNat(n));
    }
  }

  /**
   * The card positions of an answer as written: the whole string is
   * reversed before it is split, so every position is read backwards.
   */
  function IndexFieldsAsWritten(answer: string): (r: seq<string>)
    ensures |r| >= 1
  {
    Split(Reverse(answer), ' ')
  }

  /**
   * The card positions of an answer as intended: split on spaces and taken
   * last first, so that removing them one after another from a hand never
   * shifts a position still to come when they were given in rising order.
   */
  function IndexFields(answer: string): (r: seq<string>)
    ensures |r| >= 1
  {
    Reverse(Split(answer, ' '))
  }

  /** The intended reading returns exactly the fields given, last first. */
  lemma IndexFieldsSpec(answer: string, fields: seq<string>)
    requires |fields| >= 1 && forall i :: 0 <= i < |fields| ==> ' ' !in fields[i]
    requires answer == Join(fields, ' ')
    ensures IndexFields(answer) == Reverse(fields)
  {
    SplitJoin(fields, ' ');
  }

  /**
   * Cut to its first `n` fields, the intended reading keeps the last `n`
   * positions given, last first; the positions before them are dropped.
   */
  lemma IndexFieldsKeepLast(answer: string, fields: seq<string>, n: nat)
    requires |fields| >= 1 && forall i :: 0 <= i < |fields| ==> ' ' !in fields[i]
    requires answer == Join(fields, ' ') && n <= |fields|
    ensures n <= |IndexFields(answer)| && IndexFields(answer)[..n] == Reverse(fields[|fields| - n..])
  {
    IndexFieldsSpec(answer, fields);
    ReverseTake(fields, n);
  }

  /** The first `n` items of a reversal are the last `n` items, reversed. */
  lemma {:induction false} ReverseTake<T>(s: seq<T>, n: nat)
    requires n <= |s|
    ensures Reverse(s)[..n] == Reverse(s[|s| - n..])
  {
    if n > 0 {
      var front, tail := s[..|s| - 1], s[|s| - n..];
      ReverseTake(front, n - 1);
      assert front[|front| - (n - 1)..] == tail[..n - 1];
      assert Reverse(s)[..n] == [s[|s| - 1]] + Reverse(front)[..n - 1];
    }
  }

  /**
   * With a two-digit position the reading as written differs: the answer
   * "10 2" is read as positions 2 and 1 instead of 2 and 10.
   */
  lemma IndexFieldsAsWrittenMisreads()
    ensures IndexFields("10 2") == ["2", "10"]
    ensures IndexFieldsAsWritten("10 2") == ["2", "01"]
    ensures ParseInt("01") == Some(1) && ParseInt("10") == Some(10)
  {
    SampleSplits();
    assert Reverse("10 2") == "2 01";
    assert Reverse(["10", "2"]) == ["2", "10"];
    SampleNumbers();
  }

  lemma SampleSplits()
    ensures Split("10 2", ' ') == ["10", "2"]
    ensures Split("2 01", ' ') == ["2", "01"]
  {
    SplitJoin(["10", "2"], ' ');
    assert Join(["10", "2"], ' ') == "10 2";
    SplitJoin(["2", "01"], ' ');
    assert Join(["2", "01"], ' ') == "2 01";
  }

  lemma SampleNumbers()
    ensures ParseInt("01") == Some(1) && ParseInt("10") == Some(10)
  {
    SampleOne();
    SampleTen();
  }

  lemma SampleOne()
    ensures ParseInt("01") == Some(1)
  {
    TwoDigits('0', '1');
  }

  lemma SampleTen()
    ensures ParseInt("10") == Some(10)
  {
    TwoDigits('1', '0');
  }

  /** A two-digit number reads as ten times its first digit plus its second. */
  lemma TwoDigits(a: char, b: char)
    requires IsDigit(a) && IsDigit(b)
    ensures ParseInt([a, b]) == Some(10 * DigitValue(a) + DigitValue(b))
  {
    var s := [a, b];
    assert AllDigits(s);
    ParseDigits(s);
    assert s[..1] == [a] && [a][..0] == [];
    assert DigitsValue([a]) == DigitValue(a);
  }

  /** The two readings agree whenever every position is a single character. */
  lemma {:induction false} IndexFieldsAgreeOnSingleDigits(fields: seq<string>)
    requires |fields| >= 1 && forall i :: 0 <= i < |fields| ==> |fields[i]| == 1 && fields[i][0] != ' '
    ensures IndexFieldsAsWritten(Join(fields, ' ')) == IndexFields(Join(fields, ' '))
  {
    assert forall i :: 0 <= i < |fields| ==> ' ' !in fields[i] by {
      forall i | 0 <= i < |fields|
        ensures ' ' !in fields[i]
      {
        assert fields[i] == [fields[i][0]];
      }
    }
    SplitJoin(fields, ' ');
    var rev := Reverse(fields);
    assert forall i :: 0 <= i < |rev| ==> ' ' !in rev[i] && |rev[i]| == 1;
    ReverseJoin(fields);
    SplitJoin(rev, ' ');
  }

  /** Reversing the joined text of single characters joins the reversed list. */
  lemma {:induction false} ReverseJoin(fields: seq<string>)
    requires |fields| >= 1 && forall i :: 0 <= i < |fields| ==> |fields[i]| == 1
    ensures Reverse(Join(fields, ' ')) == Join(Reverse(fields), ' ')
  {
    if |fields| == 1 {
      assert Reverse(fields[0]) == fields[0];
      assert Reverse(fields) == fields;
    } else {
      var front := fields[..|fields| - 1];
      var last := fields[|fields| - 1];
      ReverseJoin(front);
      var j := Join(front, ' ');
      ReverseAppend(j + [' '], last);
      ReverseAppend(j, [' ']);
      assert Reverse(last) == last;
      assert Reverse([' ']) == [' '];
      var rf := Reverse(fields);
      assert rf == [last] + Reverse(front);
      JoinCons(last, Reverse(front));
    }
  }

  lemma {:induction false} ReverseAppend<T>(a: seq<T>, b: seq<T>)
    ensures Reverse(a + b) == Reverse(b) + Reverse(a)
  {
    var r := Reverse(a + b);
    assert |r| == |Reverse(b) + Reverse(a)|;
    forall i | 0 <= i < |r|
      ensures r[i] == (Reverse(b) + Reverse(a))[i]
    {
      if i < |b| {
        assert r[i] == (a + b)[|a| + |b| - 1 - i];
      } else {
        assert r[i] == (a + b)[|a| + |b| - 1 - i];
      }
    }
  }

  /** Joining a list with one more piece in front. */
  lemma {:induction false} JoinCons(first: string, rest: seq<string>)
    requires |rest| >= 1
    ensures Join([first] + rest, ' ') == first + [' '] + Join(rest, ' ')
  {
    var all := [first] + rest;
    if |rest| == 1 {
      assert all[..1] == [first];
    } else {
      var rf := rest[..|rest| - 1];
      JoinCons(first, rf);
      assert all[..|all| - 1] == [first] + rf;
    }
  }

  /** The first field of a text, as `text.split(' ')[0]`. */
  function FirstField(s: string): (r: string)
    ensures ' ' !in r
  {
    Split(s, ' ')[0]
  }

  /** The turn loop's commands, after the message's first field is dropped. */
  datatype Command =
    | PlayAllTreasures
    | EndTurn
    | PlayCard(arg: Option<string>)
    | BuyCard(arg: Option<string>)
    | Unknown
    | Malformed

  /**
   * How the turn loop reads a message: everything up to the first ':' is
   * dropped (a message without one raises IndexError), the rest is split
   * on ':', the first field names the command and the second, when
   * present, is its argument.
   */
  function Decode(msg: string): (c: Command)
    ensures c == Malformed <==> ':' !in msg
  {
    var parts := SplitOnce(msg, ':');
    if |parts| == 1 then Malformed
    else
      var info := Split(parts[1], ':');
      var arg := if |info| >= 2 then Some(info[1]) else None;
      if info[0] == "Play All Treasures" then PlayAllTreasures
      else if info[0] == "End Turn" then EndTurn
      else if info[0] == "Play Card" then PlayCard(arg)
      else if info[0] == "Buy Card" then BuyCard(arg)
      else Unknown
  }

  /** A message as a client sends it: a sender field, the command and its argument. */
  function Encode(sender: string, command: string, arg: string): string
  {
    sender + ":" + command + ":" + arg
  }

  /** Decoding recovers the command and argument of a well-formed message. */
  lemma DecodeEncode(sender: string, arg: string)
    requires ':' !in sender && ':' !in arg
    ensures Decode(Encode(sender, "Play Card", arg)) == PlayCard(Some(arg))
    ensures Decode(Encode(sender, "Buy Card", arg)) == BuyCard(Some(arg))
  {
    DecodeCommand(sender, "Play Card", arg);
    DecodeCommand(sender, "Buy Card", arg);
  }

  /** The commands without an argument are recognised whatever follows them. */
  lemma DecodeEncodeBare(sender: string, arg: string)
    requires ':' !in sender && ':' !in arg
    ensures Decode(Encode(sender, "Play All Treasures", arg)) == PlayAllTreasures
    ensures Decode(Encode(sender, "End Turn", arg)) == EndTurn
  {
    DecodeCommand(sender, "Play All Treasures", arg);
    DecodeCommand(sender, "End Turn", arg);
  }

  /** Decoding an encoded message reads back its command, with the argument where the command takes one. */
  lemma DecodeCommand(sender: string, command: string, arg: string)
    requires ':' !in sender && ':' !in command && ':' !in arg
    ensures Decode(Encode(sender, command, arg)) ==
      if command == "Play All Treasures" then PlayAllTreasures
      else if command == "End Turn" then EndTurn
      else if command == "Play Card" then PlayCard(Some(arg))
      else if command == "Buy Card" then BuyCard(Some(arg))
      else Unknown
  {
    EncodedFields(sender, command, arg);
  }

  /** The fields the turn loop finds in an encoded message. */
  lemma {:induction false} EncodedFields(sender: string, command: string, arg: string)
    requires ':' !in sender && ':' !in command && ':' !in arg
    ensures var parts := SplitOnce(Encode(sender, command, arg), ':');
      |parts| == 2 && Split(parts[1], ':') == [command, arg]
  {
    assert Encode(sender, command, arg) == sender + [':'] + (command + ":" + arg);
    SplitOnceAt(sender, command + ":" + arg);
    SplitJoin([command, arg], ':');
    assert Join([command, arg], ':') == command + ":" + arg;
  }

  /** Splitting once at the first separator, after a separator-free prefix. */
  lemma {:induction false} SplitOnceAt(before: string, after: string)
    requires ':' !in before
    ensures SplitOnce(before + [':'] + after, ':') == [before, after]
  {
    var s := before + [':'] + after;
    if before == [] {
      assert s == [':'] + after;
    } else {
      assert s[1..] == before[1..] + [':'] + after;
      SplitOnceAt(before[1..], after);
      assert [s[0]] + before[1..] == before;
    }
  }

  /** An item of the list handed to Python's `str.join`: a string, or any other value. */
  datatype JoinItem = Text(text: string) | NotText

  /** `sep.join(items)`: an item that is not a string raises TypeError, here None. */
  function PyJoin(sep: string, items: seq<JoinItem>): (r: Option<string>)
    ensures r.Some? <==> forall i :: 0 <= i < |items| ==> items[i].Text?
    ensures |items| == 1 && items[0].Text? ==> r == Some(items[0].text)
  {
    if items == [] then Some("")
    else
      var front := PyJoin(sep, items[..|items| - 1]);
      var last := items[|items| - 1];
      if front.None? || !last.Text? then None
      else if |items| == 1 then Some(last.text)
      else Some(front.value + sep + last.text)
  }

  /** The players' names as strings for `join`. */
  function NameItems(names: seq<string>): (r: seq<JoinItem>)
    ensures |r| == |names| && forall i :: 0 <= i < |names| ==> r[i] == Text(names[i])
  {
    seq(|names|, i requires 0 <= i < |names| => Text(names[i]))
  }

  const BannerStart: string := "-- Starting game between "
  const BannerEnd: string := " --"

  /**
   * The start message as `__init__` builds it: the list of players is
   * wrapped in another list, so `join` is handed one item that is not a
   * string and raises, whoever the players are.
   */
  function StartBannerAsWritten(names: seq<string>): (r: Option<string>)
    ensures r.None?
  {
    match PyJoin(", ", [NotText])
    case None => None
    case Some(line) => Some(BannerStart + line + BannerEnd)
  }

  /** The start message with the names joined, as intended. */
  function StartBanner(names: seq<string>): (r: Option<string>)
    ensures r.Some? && |r.value| >= |BannerStart| + |BannerEnd|
    ensures r.value[..|BannerStart|] == BannerStart && r.value[|r.value| - |BannerEnd|..] == BannerEnd
  {
    var line := PyJoin(", ", NameItems(names));
    if line.None? then None else Some(BannerStart + line.value + BannerEnd)
  }

  /** With one player the intended message names exactly that player. */
  lemma StartBannerOne(name: string)
    ensures StartBanner([name]) == Some(BannerStart + name + BannerEnd)
  {
    assert NameItems([name]) == [Text(name)];
  }

  /** Joining two or more names puts ", " between the earlier names and the last. */
  lemma {:induction false} JoinNamesStep(names: seq<string>)
    requires |names| >= 2
    ensures PyJoin(", ", NameItems(names)) ==
      Some(PyJoin(", ", NameItems(names[..|names| - 1])).value + ", " + names[|names| - 1])
  {
    assert NameItems(names)[..|names| - 1] == NameItems(names[..|names| - 1]);
  }
}
