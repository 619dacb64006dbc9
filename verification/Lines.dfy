/** Text fields that hold one entry per line, as the dashboard's policy editor reads and fills them. */
module Lines {
  import opened Text
  import opened Splitting

  const NEWLINE := '\n'

  /** The lines, each trimmed, blank ones dropped. */
  function Entries(lines: seq<string>): seq<string> {
    if lines == [] then []
    else (if Trim(lines[0], WHITESPACE) != "" then [Trim(lines[0], WHITESPACE)] else []) + Entries(lines[1..])
  }

  function Parse(field: string): seq<string> {
    Entries(Split(field, NEWLINE))
  }

  /** A value the field can carry: on one line, without blanks at its ends. */
  predicate Plain(s: string) {
    Trimmed(s, WHITESPACE) && NEWLINE !in s
  }

  predicate AllPlain(list: seq<string>) {
    forall i :: 0 <= i < |list| ==> list[i] != "" && Plain(list[i])
  }

  lemma TrimLeftWithin(s: string, c: char)
    requires c !in s
    ensures c !in TrimLeft(s, WHITESPACE)
  {
  }

  lemma TrimWithin(s: string, c: char)
    requires c !in s
    ensures c !in Trim(s, WHITESPACE)
  {
    TrimLeftWithin(s, c);
    TrimRightEnds(TrimLeft(s, WHITESPACE), WHITESPACE);
  }

  lemma {:induction false} EntriesArePlain(lines: seq<string>)
    requires forall i :: 0 <= i < |lines| ==> NEWLINE !in lines[i]
    ensures AllPlain(Entries(lines))
  {
    if lines != [] {
      TrimIsTrimmed(lines[0], WHITESPACE);
      TrimWithin(lines[0], NEWLINE);
      EntriesArePlain(lines[1..]);
    }
  }

  lemma {:induction false} PlainEntries(lines: seq<string>)
    requires AllPlain(lines)
    ensures Entries(lines) == lines
  {
    if lines != [] {
      TrimmedStays(lines[0], WHITESPACE);
      PlainEntries(lines[1..]);
    }
  }

  /** Whatever is typed, the field parses to plain entries. */
  lemma ParseIsPlain(field: string)
    ensures AllPlain(Parse(field))
  {
    SplitsApart(field, NEWLINE);
    EntriesArePlain(Split(field, NEWLINE));
  }

  /** Plain entries survive the field. */
  lemma ParseJoin(list: seq<string>)
    requires AllPlain(list)
    ensures Parse(Join(list, NEWLINE)) == list
  {
    if list == [] {
      assert Split("", NEWLINE) == [""];
      assert Trim("", WHITESPACE) == "";
      assert Entries([""]) == [] + Entries([]);
    } else {
      SplitJoin(list, NEWLINE);
      PlainEntries(list);
    }
  }

  function NonBlank(list: seq<string>): (r: seq<string>)
    ensures forall s :: s in r <==> s in list && s != ""
  {
    if list == [] then []
    else
      var n := |list| - 1;
      assert list == list[..n] + [list[n]];
      NonBlank(list[..n]) + if list[n] != "" then [list[n]] else []
  }

  predicate Distinct(list: seq<string>) {
    forall i, j :: 0 <= i < j < |list| ==> list[i] != list[j]
  }

  /** First occurrences, in order. */
  function Dedup(list: seq<string>): (r: seq<string>)
    ensures forall s :: s in r <==> s in list
    ensures Distinct(r)
  {
    if list == [] then []
    else
      var n := |list| - 1;
      assert list == list[..n] + [list[n]];
      var rest := Dedup(list[..n]);
      if list[n] in rest then rest else rest + [list[n]]
  }

  lemma {:induction false} DedupOnce(list: seq<string>)
    requires Distinct(list)
    ensures Dedup(list) == list
  {
    if list != [] {
      var n := |list| - 1;
      DedupOnce(list[..n]);
      assert list == list[..n] + [list[n]];
    }
  }

  lemma {:induction false} NonBlankStays(list: seq<string>)
    requires "" !in list
    ensures NonBlank(list) == list
  {
    if list != [] {
      var n := |list| - 1;
      assert list == list[..n] + [list[n]];
      NonBlankStays(list[..n]);
    }
  }

  /** Each line counts for itself: trimmed, and not at all when blank. */
  lemma {:induction false} EntriesByOne(lines: seq<string>, line: string)
    ensures Entries(lines + [line]) ==
            Entries(lines) + if Trim(line, WHITESPACE) == "" then [] else [Trim(line, WHITESPACE)]
  {
    if lines == [] {
      assert [] + [line] == [line];
      assert Entries([line]) == (if Trim(line, WHITESPACE) != "" then [Trim(line, WHITESPACE)] else []) + Entries([]);
    } else {
      assert (lines + [line])[1..] == lines[1..] + [line];
      EntriesByOne(lines[1..], line);
    }
  }
}
