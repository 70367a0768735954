/** facts_to_str: the "key: value" listing the bot shows when it asks the user
    to confirm an entry, also used for the monthly report's breakdowns. */
module Format {
  import opened Text

  /** One entry as the f-string "{key}: {value}" renders it. */
  function FactLine(entry: (string, string)): string
  {
    entry.0 + ": " + entry.1
  }

  /** "\n".join(lines) */
  function JoinLines(lines: seq<string>): string
  {
    if lines == [] then ""
    else if |lines| == 1 then lines[0]
    else lines[0] + "\n" + JoinLines(lines[1..])
  }

  /** str.split("\n"): the pieces between newlines, always at least one. */
  function SplitLines(s: string): (r: seq<string>)
    ensures r != []
    decreases |s|
  {
    var k := Find(s, '\n');
    if k == |s| then [s] else [s[..k]] + SplitLines(s[k + 1..])
  }

  /** facts_to_str(entries): one line per dictionary entry, in the
      dictionary's order, with a newline before the first and after the last. */
  function FactsToStr(entries: seq<(string, string)>): (r: string)
    ensures |r| >= 2 && r[0] == '\n' && r[|r| - 1] == '\n'
  {
    "\n" + JoinLines(seq(|entries|, i requires 0 <= i < |entries| => FactLine(entries[i]))) + "\n"
  }

  predicate NoNewline(s: string) { '\n' !in s }

  lemma SplitLeadingNewline(s: string)
    ensures SplitLines("\n" + s) == [""] + SplitLines(s)
  {
    assert Find("\n" + s, '\n') == 0;
    assert ("\n" + s)[1..] == s;
  }

  lemma SplitAfterLine(line: string, rest: string)
    requires NoNewline(line)
    ensures SplitLines(line + "\n" + rest) == [line] + SplitLines(rest)
  {
    var s := line + "\n" + rest;
    assert s[|line|] == '\n';
    assert forall j :: 0 <= j < |line| ==> s[j] == line[j];
    assert Find(s, '\n') == |line|;
    assert s[..|line|] == line && s[|line| + 1..] == rest;
  }

  /** Splitting a join of newline-free lines, followed by more text, gives the
      lines back and then the pieces of that text. */
  lemma {:induction false} SplitJoin(lines: seq<string>, rest: string)
    requires lines != []
    requires forall i :: 0 <= i < |lines| ==> NoNewline(lines[i])
    ensures SplitLines(JoinLines(lines) + "\n" + rest) == lines + SplitLines(rest)
  {
    if |lines| == 1 {
      SplitAfterLine(lines[0], rest);
    } else {
      var more := lines[1..];
      forall i | 0 <= i < |more| ensures NoNewline(more[i]) {
        assert more[i] == lines[i + 1];
      }
      assert lines == [lines[0]] + more;
      SplitJoinStep(lines[0], more, rest);
      SplitJoin(more, rest);
    }
  }

  lemma SplitJoinStep(head: string, more: seq<string>, rest: string)
    requires NoNewline(head) && more != []
    ensures SplitLines(JoinLines([head] + more) + "\n" + rest) == [head] + SplitLines(JoinLines(more) + "\n" + rest)
  {
    var joined := JoinLines(more);
    var tail := joined + "\n" + rest;
    assert JoinLines([head] + more) == head + "\n" + joined by {
      assert ([head] + more)[0] == head && ([head] + more)[1..] == more;
    }
    assert JoinLines([head] + more) + "\n" + rest == head + "\n" + tail;
    SplitAfterLine(head, tail);
  }

  /** Reading facts_to_str's text line by line gives back an empty line, the
      entries' "key: value" lines in order, and an empty line, provided no key
      or value holds a newline. */
  lemma FactsToStrLines(entries: seq<(string, string)>)
    requires entries != []
    requires forall i :: 0 <= i < |entries| ==> NoNewline(entries[i].0) && NoNewline(entries[i].1)
    ensures SplitLines(FactsToStr(entries)) ==
            [""] + seq(|entries|, i requires 0 <= i < |entries| => FactLine(entries[i])) + [""]
  {
    var lines := seq(|entries|, i requires 0 <= i < |entries| => FactLine(entries[i]));
    forall i | 0 <= i < |lines| ensures NoNewline(lines[i]) {
      FactLineNoNewline(entries[i]);
    }
    var joined := JoinLines(lines);
    SplitJoin(lines, "");
    assert SplitLines(joined + "\n") == lines + [""] by {
      assert joined + "\n" + "" == joined + "\n";
      assert SplitLines("") == [""];
    }
    SplitLeadingNewline(joined + "\n");
    assert FactsToStr(entries) == "\n" + (joined + "\n");
  }

  lemma FactLineNoNewline(entry: (string, string))
    requires NoNewline(entry.0) && NoNewline(entry.1)
    ensures NoNewline(FactLine(entry))
  {
    var line := FactLine(entry);
    forall j | 0 <= j < |line| ensures line[j] != '\n' {
      if j < |entry.0| {
        assert line[j] == entry.0[j];
      } else if j >= |entry.0| + 2 {
        assert line[j] == entry.1[j - |entry.0| - 2];
      }
    }
  }

  /** With no entries the text is two newlines, as "\n".join([]) is empty. */
  lemma FactsToStrEmpty()
    ensures FactsToStr([]) == "\n\n"
  {
  }
}
