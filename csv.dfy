/**
 * Plain comma-joined text, as the CSV export writes it: fields joined with
 * `,` (no quoting), each line ended by a newline. Its partner is a reader
 * that splits the text back into lines and fields; the two are inverse
 * whenever no field holds a comma or a newline.
 */
module Csv {

  /** `sep.join(fields)`. */
  function Join(fields: seq<string>, sep: char): string
  {
    if |fields| == 0 then ""
    else if |fields| == 1 then fields[0]
    else fields[0] + [sep] + Join(fields[1..], sep)
  }

  /** `s.split(sep)`: the pieces between separators, always at least one. */
  function Split(s: string, sep: char): (parts: seq<string>)
    ensures |parts| >= 1
    ensures forall k :: 0 <= k < |parts| ==> sep !in parts[k]
  {
    if s == [] then [""]
    else
      var rest := Split(s[1..], sep);
      if s[0] == sep then [""] + rest
      else [[s[0]] + rest[0]] + rest[1..]
  }

  /** Each line followed by a newline, as a loop of `f.write(line + "\n")` produces. */
  function Unlines(lines: seq<string>): string
  {
    if lines == [] then "" else lines[0] + "\n" + Unlines(lines[1..])
  }

  /** The lines of a newline-terminated text (a final line without newline is kept). */
  function Lines(text: string): (lines: seq<string>)
    ensures forall k :: 0 <= k < |lines| ==> '\n' !in lines[k]
  {
    var parts := Split(text, '\n');
    if parts[|parts| - 1] == "" then parts[..|parts| - 1] else parts
  }

  /** A reader for the export: every line split at its commas. */
  function Rows(text: string): (rows: seq<seq<string>>)
    ensures |rows| == |Lines(text)|
  {
    var lines := Lines(text);
    seq(|lines|, i requires 0 <= i < |lines| => Split(lines[i], ','))
  }

  /** No field holds the field separator or the line separator. */
  predicate Clean(fields: seq<string>)
  {
    forall f :: f in fields ==> ',' !in f && '\n' !in f
  }

  lemma {:induction false} JoinCons(f: string, rest: seq<string>, sep: char)
    requires |rest| >= 1
    ensures Join([f] + rest, sep) == f + [sep] + Join(rest, sep)
  {
    assert ([f] + rest)[1..] == rest;
  }

  /** A line of four values, written out as the export concatenates it. */
  lemma JoinFour(a: string, b: string, c: string, d: string)
    ensures Join([a, b, c, d], ',') == a + "," + b + "," + c + "," + d
  {
    JoinCons(c, [d], ',');
    JoinCons(b, [c, d], ',');
    JoinCons(a, [b, c, d], ',');
    assert [a] + [b, c, d] == [a, b, c, d];
    assert [b] + [c, d] == [b, c, d];
    assert [c] + [d] == [c, d];
  }

  /** A line of six values, written out as the export concatenates it. */
  lemma JoinSix(a: string, b: string, c: string, d: string, e: string, f: string)
    ensures Join([a, b, c, d, e, f], ',') == a + "," + b + "," + c + "," + d + "," + e + "," + f
  {
    JoinFour(c, d, e, f);
    JoinCons(b, [c, d, e, f], ',');
    JoinCons(a, [b, c, d, e, f], ',');
    assert [a] + [b, c, d, e, f] == [a, b, c, d, e, f];
    assert [b] + [c, d, e, f] == [b, c, d, e, f];
  }

  /** Splitting a piece without separators gives that piece back. */
  lemma {:induction false} SplitWithoutSeparator(a: string, sep: char)
    requires sep !in a
    ensures Split(a, sep) == [a]
  {
    if a != [] {
      SplitWithoutSeparator(a[1..], sep);
      assert [a[0]] + a[1..] == a;
    }
  }

  /** Splitting stops at the first separator. */
  lemma {:induction false} SplitAtFirstSeparator(a: string, rest: string, sep: char)
    requires sep !in a
    ensures Split(a + [sep] + rest, sep) == [a] + Split(rest, sep)
  {
    var s := a + [sep] + rest;
    if a == [] {
      assert s[1..] == rest;
    } else {
      SplitAtFirstSeparator(a[1..], rest, sep);
      assert s[1..] == a[1..] + [sep] + rest;
      assert [a[0]] + a[1..] == a;
    }
  }

  /** Splitting the join of separator-free fields gives the fields back. */
  lemma {:induction false} SplitJoin(fields: seq<string>, sep: char)
    requires |fields| >= 1
    requires forall k :: 0 <= k < |fields| ==> sep !in fields[k]
    ensures Split(Join(fields, sep), sep) == fields
  {
    if |fields| == 1 {
      SplitWithoutSeparator(fields[0], sep);
    } else {
      SplitJoin(fields[1..], sep);
      SplitAtFirstSeparator(fields[0], Join(fields[1..], sep), sep);
      assert [fields[0]] + fields[1..] == fields;
    }
  }

  /** Joining the pieces of a split gives the text back, whatever it holds. */
  lemma {:induction false} JoinSplit(s: string, sep: char)
    ensures Join(Split(s, sep), sep) == s
  {
    if s != [] {
      JoinSplit(s[1..], sep);
      var rest := Split(s[1..], sep);
      if s[0] == sep {
        JoinCons("", rest, sep);
      } else if |rest| == 1 {
        assert Join(rest, sep) == rest[0];
      } else {
        JoinCons(rest[0], rest[1..], sep);
        JoinCons([s[0]] + rest[0], rest[1..], sep);
        assert [rest[0]] + rest[1..] == rest;
      }
    }
  }

  /** A character other than the separator occurs in a join only if it occurs in a field. */
  lemma {:induction false} JoinWithout(fields: seq<string>, sep: char, c: char)
    requires c != sep
    requires forall k :: 0 <= k < |fields| ==> c !in fields[k]
    ensures c !in Join(fields, sep)
  {
    if |fields| > 1 {
      JoinWithout(fields[1..], sep, c);
    }
  }

  lemma {:induction false} UnlinesAsJoin(lines: seq<string>)
    ensures Unlines(lines) == Join(lines + [""], '\n')
  {
    if lines != [] {
      UnlinesAsJoin(lines[1..]);
      assert (lines + [""])[1..] == lines[1..] + [""];
    }
  }

  lemma {:induction false} UnlinesSnoc(lines: seq<string>, line: string)
    ensures Unlines(lines + [line]) == Unlines(lines) + line + "\n"
  {
    if lines != [] {
      UnlinesSnoc(lines[1..], line);
      assert (lines + [line])[1..] == lines[1..] + [line];
    }
  }

  /** Reading back the lines that were written gives those lines. */
  lemma LinesUnlines(lines: seq<string>)
    requires forall k :: 0 <= k < |lines| ==> '\n' !in lines[k]
    ensures Lines(Unlines(lines)) == lines
  {
    UnlinesAsJoin(lines);
    SplitJoin(lines + [""], '\n');
    assert (lines + [""])[..|lines|] == lines;
  }

  /** Reading back lines written as joins of clean fields gives those fields. */
  lemma RowsRoundTrip(lines: seq<string>, rows: seq<seq<string>>)
    requires |lines| == |rows|
    requires forall i :: 0 <= i < |rows| ==> |rows[i]| >= 1 && Clean(rows[i])
    requires forall i :: 0 <= i < |rows| ==> lines[i] == Join(rows[i], ',')
    ensures Rows(Unlines(lines)) == rows
  {
    forall i | 0 <= i < |rows|
      ensures '\n' !in lines[i] && Split(lines[i], ',') == rows[i]
    {
      assert forall k :: 0 <= k < |rows[i]| ==> rows[i][k] in rows[i];
      JoinWithout(rows[i], ',', '\n');
      SplitJoin(rows[i], ',');
    }
    LinesUnlines(lines);
  }
}
