/** Splitting and joining strings, decimal numerals, and POSIX paths: what the file formats rest on. */
module Text {

  /* ----- separators ----- */

  /** Python's `s.split(sep)`. */
  function Split(s: string, sep: char): (parts: seq<string>)
    ensures |parts| > 0
  {
    if s == "" then [""]
    else
      var rest := Split(s[1..], sep);
      if s[0] == sep then [""] + rest else [[s[0]] + rest[0]] + rest[1..]
  }

  function Join(parts: seq<string>, sep: char): string {
    if parts == [] then "" else if |parts| == 1 then parts[0] else parts[0] + [sep] + Join(parts[1..], sep)
  }

  /** Every part is followed by the separator: a file of lines, or a NUL-terminated list. */
  function Terminated(parts: seq<string>, sep: char): string {
    if parts == [] then "" else parts[0] + [sep] + Terminated(parts[1..], sep)
  }

  predicate Free(parts: seq<string>, sep: char) {
    forall i :: 0 <= i < |parts| ==> sep !in parts[i]
  }

  lemma {:induction false} SplitWhole(part: string, sep: char)
    requires sep !in part
    ensures Split(part, sep) == [part]
  {
    if part != "" {
      SplitWhole(part[1..], sep);
      assert [part[0]] + part[1..] == part;
    }
  }

  lemma {:induction false} SplitFirst(part: string, sep: char, rest: string)
    requires sep !in part
    ensures Split(part + [sep] + rest, sep) == [part] + Split(rest, sep)
  {
    var s := part + [sep] + rest;
    if part == "" {
      assert s[1..] == rest;
    } else {
      SplitFirst(part[1..], sep, rest);
      assert s[1..] == part[1..] + [sep] + rest;
      assert [part[0]] + part[1..] == part;
    }
  }

  lemma {:induction false} SplitJoin(parts: seq<string>, sep: char)
    requires parts != [] && Free(parts, sep)
    ensures Split(Join(parts, sep), sep) == parts
  {
    if |parts| == 1 {
      SplitWhole(parts[0], sep);
    } else {
      SplitFirst(parts[0], sep, Join(parts[1..], sep));
      SplitJoin(parts[1..], sep);
    }
  }

  lemma {:induction false} JoinSplit(s: string, sep: char)
    ensures Join(Split(s, sep), sep) == s && Free(Split(s, sep), sep)
  {
    if s != "" {
      JoinSplit(s[1..], sep);
      var rest := Split(s[1..], sep);
      if s[0] == sep {
        assert ([""] + rest)[1..] == rest;
      } else {
        var first := [s[0]] + rest[0];
        assert ([first] + rest[1..])[1..] == rest[1..];
        if |rest| > 1 {
          assert Join([first] + rest[1..], sep) == first + [sep] + Join(rest[1..], sep);
        }
      }
    }
  }

  lemma Regrouped<T>(left: seq<T>, middle: seq<T>, right: seq<T>)
    ensures left + middle + right == left + (middle + right)
  {
  }

  lemma {:induction false} SplitMore(parts: seq<string>, sep: char, right: string)
    requires parts != [] && Free(parts, sep)
    ensures Split(Join(parts, sep) + [sep] + right, sep) == parts + Split(right, sep)
  {
    if |parts| == 1 {
      SplitFirst(parts[0], sep, right);
    } else {
      var tail := Join(parts[1..], sep);
      SplitFirst(parts[0], sep, tail + [sep] + right);
      SplitMore(parts[1..], sep, right);
      Regrouped(parts[0] + [sep], tail, [sep] + right);
      Regrouped(tail, [sep], right);
      Regrouped(parts[0] + [sep] + tail, [sep], right);
      Regrouped([parts[0]], parts[1..], Split(right, sep));
      assert [parts[0]] + parts[1..] == parts;
    }
  }

  /** Splitting what two texts and a separator between them make gives the parts of both. */
  lemma SplitBoth(left: string, sep: char, right: string)
    ensures Split(left + [sep] + right, sep) == Split(left, sep) + Split(right, sep)
  {
    JoinSplit(left, sep);
    SplitMore(Split(left, sep), sep, right);
  }

  /** The terminated parts, and what stands after the last separator, are read back exactly. */
  lemma {:induction false} SplitTerminated(parts: seq<string>, tail: string, sep: char)
    requires Free(parts, sep) && sep !in tail
    ensures Split(Terminated(parts, sep) + tail, sep) == parts + [tail]
  {
    if parts == [] {
      assert Terminated(parts, sep) + tail == tail;
      SplitWhole(tail, sep);
    } else {
      var rest := Terminated(parts[1..], sep) + tail;
      assert Terminated(parts, sep) + tail == parts[0] + [sep] + rest;
      SplitFirst(parts[0], sep, rest);
      SplitTerminated(parts[1..], tail, sep);
    }
  }

  lemma {:induction false} TerminatedAppend(parts: seq<string>, more: seq<string>, sep: char)
    ensures Terminated(parts + more, sep) == Terminated(parts, sep) + Terminated(more, sep)
  {
    if parts == [] {
      assert parts + more == more;
    } else {
      assert (parts + more)[1..] == parts[1..] + more;
      TerminatedAppend(parts[1..], more, sep);
    }
  }

  /** One line for each item. */
  function Mapped<T>(line: T -> string, items: seq<T>): (lines: seq<string>)
    ensures |lines| == |items| && forall i :: 0 <= i < |items| ==> lines[i] == line(items[i])
  {
    if items == [] then [] else [line(items[0])] + Mapped(line, items[1..])
  }

  lemma {:induction false} MappedAppend<T>(line: T -> string, items: seq<T>, more: seq<T>)
    ensures Mapped(line, items + more) == Mapped(line, items) + Mapped(line, more)
  {
    if items == [] {
      assert items + more == more;
    } else {
      assert (items + more)[1..] == items[1..] + more;
      MappedAppend(line, items[1..], more);
    }
  }

  /** A cut through a file of lines leaves whole lines and the beginning of one more. */
  lemma {:induction false} CutTerminated(parts: seq<string>, sep: char, cut: nat) returns (whole: nat, tail: string)
    requires Free(parts, sep) && cut <= |Terminated(parts, sep)|
    ensures whole <= |parts| && sep !in tail
    ensures Terminated(parts, sep)[..cut] == Terminated(parts[..whole], sep) + tail
    ensures tail != "" ==> whole < |parts| && tail <= parts[whole]
  {
    if parts == [] {
      whole, tail := 0, "";
    } else if cut <= |parts[0]| {
      whole, tail := 0, parts[0][..cut];
    } else {
      var rest := cut - |parts[0]| - 1;
      whole, tail := CutTerminated(parts[1..], sep, rest);
      assert parts[..whole + 1][1..] == parts[1..][..whole];
      assert parts[1..][..whole] == parts[1..whole + 1];
      assert Terminated(parts, sep)[..cut] == parts[0] + [sep] + Terminated(parts[1..], sep)[..rest];
      whole := whole + 1;
    }
  }

  /** `content[:content.rfind(sep) + 1]`: everything up to the last separator. */
  function Complete(content: string, sep: char): (head: string)
    ensures head <= content
  {
    if content == "" then ""
    else if content[|content| - 1] == sep then content
    else Complete(content[..|content| - 1], sep)
  }

  lemma {:induction false} CompleteTerminated(head: string, tail: string, sep: char)
    requires head == "" || head[|head| - 1] == sep
    requires sep !in tail
    ensures Complete(head + tail, sep) == head
  {
    if tail == "" {
      assert head + tail == head;
    } else {
      var n := |tail| - 1;
      CompleteTerminated(head, tail[..n], sep);
      assert (head + tail)[..|head + tail| - 1] == head + tail[..n];
      assert tail[n] != sep;
    }
  }

  lemma {:induction false} TerminatedEnds(parts: seq<string>, sep: char)
    ensures parts == [] <==> Terminated(parts, sep) == ""
    ensures parts != [] ==> Terminated(parts, sep)[|Terminated(parts, sep)| - 1] == sep
  {
    if parts != [] {
      TerminatedEnds(parts[1..], sep);
    }
  }

  /* ----- decimal numerals ----- */

  function Digit(d: nat): char
    requires d < 10
  {
    '0' + d as char
  }

  predicate IsDigit(c: char) {
    '0' <= c <= '9'
  }

  function Decimal(n: nat): (text: string)
    ensures text != "" && forall c <- text :: IsDigit(c)
  {
    if n < 10 then [Digit(n)] else Decimal(n / 10) + [Digit(n % 10)]
  }

  function Numeral(text: string): nat
    requires forall c <- text :: IsDigit(c)
  {
    if text == "" then 0
    else
      var last := text[|text| - 1];
      assert IsDigit(last);
      10 * Numeral(text[..|text| - 1]) + (last as int - '0' as int)
  }

  lemma {:induction false} DecimalRoundTrip(n: nat)
    ensures Numeral(Decimal(n)) == n
  {
    if n >= 10 {
      DecimalRoundTrip(n / 10);
      assert Decimal(n)[..|Decimal(n)| - 1] == Decimal(n / 10);
    }
  }

  /** The digits that a text begins with. */
  function DigitsOf(text: string): (digits: string)
    ensures digits <= text && forall c <- digits :: IsDigit(c)
  {
    if text == "" || !IsDigit(text[0]) then "" else [text[0]] + DigitsOf(text[1..])
  }

  lemma {:induction false} DigitsOfNumber(digits: string, rest: string)
    requires forall c <- digits :: IsDigit(c)
    requires rest == "" || !IsDigit(rest[0])
    ensures DigitsOf(digits + rest) == digits
  {
    if digits == "" {
      assert digits + rest == rest;
    } else {
      assert (digits + rest)[1..] == digits[1..] + rest;
      DigitsOfNumber(digits[1..], rest);
    }
  }
}
