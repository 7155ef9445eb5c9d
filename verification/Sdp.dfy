/** Limiting the bandwidth of every media section of a session description before it is applied. */
module Sdp {

  /** The bandwidth line of section 5.8 of RFC 8866 that is inserted. */
  const BANDWIDTH: string := "b=AS:512"

  predicate IsMedia(line: string) {
    "m=" <= line
  }

  // ----- Text and lines -----

  predicate IsLine(line: string) {
    '\n' !in line
  }

  function Split(text: string): (lines: seq<string>)
    ensures lines != [] && forall line | line in lines :: IsLine(line)
  {
    if text == "" then [""]
    else
      var rest := Split(text[1..]);
      assert rest[0] in rest;
      if text[0] == '\n' then [""] + rest else [[text[0]] + rest[0]] + rest[1..]
  }

  function Join(lines: seq<string>): string
    requires lines != []
  {
    if |lines| == 1 then lines[0] else lines[0] + "\n" + Join(lines[1..])
  }

  lemma {:induction false} JoinUndoesSplit(text: string)
    ensures Join(Split(text)) == text
  {
    if text == "" {
    } else {
      var rest := Split(text[1..]);
      JoinUndoesSplit(text[1..]);
      if text[0] == '\n' {
        assert ([""] + rest)[1..] == rest;
        assert text == "" + "\n" + text[1..];
      } else {
        var lines := [[text[0]] + rest[0]] + rest[1..];
        assert lines[1..] == rest[1..];
        assert text == [text[0]] + text[1..];
        assert Join(lines) == [text[0]] + Join(rest);
      }
    }
  }

  lemma {:induction false} SplitLine(line: string)
    requires IsLine(line)
    ensures Split(line) == [line]
  {
    if line == "" {
    } else {
      SplitLine(line[1..]);
      assert line == [line[0]] + line[1..];
    }
  }

  lemma {:induction false} SplitFirstLine(line: string, text: string)
    requires IsLine(line)
    ensures Split(line + "\n" + text) == [line] + Split(text)
  {
    var whole := line + "\n" + text;
    if line == "" {
      assert whole[1..] == text;
    } else {
      SplitFirstLine(line[1..], text);
      assert whole[1..] == line[1..] + "\n" + text;
      assert line == [line[0]] + line[1..];
    }
  }

  lemma {:induction false} SplitUndoesJoin(lines: seq<string>)
    requires lines != [] && forall line | line in lines :: IsLine(line)
    ensures Split(Join(lines)) == lines
  {
    if |lines| == 1 {
      SplitLine(lines[0]);
    } else {
      SplitUndoesJoin(lines[1..]);
      SplitFirstLine(lines[0], Join(lines[1..]));
    }
  }

  // ----- Inserting and deleting the bandwidth lines -----

  function Limited(line: string): seq<string> {
    if IsMedia(line) then [line, BANDWIDTH] else [line]
  }

  function WithBandwidth(lines: seq<string>): seq<string> {
    if lines == [] then [] else WithBandwidth(lines[..|lines| - 1]) + Limited(lines[|lines| - 1])
  }

  /** Deletes the line after every media line. */
  function WithoutBandwidth(lines: seq<string>): seq<string> {
    if lines == [] then []
    else [lines[0]] + WithoutBandwidth(lines[if IsMedia(lines[0]) && |lines| > 1 then 2 else 1..])
  }

  lemma WithBandwidthLast(lines: seq<string>, line: string)
    ensures WithBandwidth(lines + [line]) == WithBandwidth(lines) + Limited(line)
  {
    assert (lines + [line])[..|lines|] == lines;
  }

  lemma {:induction false} WithBandwidthFirst(line: string, lines: seq<string>)
    ensures WithBandwidth([line] + lines) == Limited(line) + WithBandwidth(lines)
  {
    if lines == [] {
      WithBandwidthLast([], line);
      assert [line] + lines == [] + [line];
    } else {
      var init, last := lines[..|lines| - 1], lines[|lines| - 1];
      WithBandwidthFirst(line, init);
      WithBandwidthLast([line] + init, last);
      assert [line] + lines == [line] + init + [last];
    }
  }

  lemma {:induction false} DeletingUndoesInserting(lines: seq<string>)
    ensures WithoutBandwidth(WithBandwidth(lines)) == lines
  {
    if lines == [] {
    } else {
      var rest := WithBandwidth(lines[1..]);
      WithBandwidthFirst(lines[0], lines[1..]);
      assert lines == [lines[0]] + lines[1..];
      assert (Limited(lines[0]) + rest)[|Limited(lines[0])|..] == rest;
      DeletingUndoesInserting(lines[1..]);
    }
  }

  function MediaIndices(lines: seq<string>): set<nat> {
    set i: nat | i < |lines| && "m=" <= lines[i]
  }

  /** One more line is kept, and followed by the bandwidth line if it starts with "m=". */
  lemma OneMoreLine(lines: seq<string>, line: string)
    ensures WithBandwidth(lines + [line])
         == WithBandwidth(lines) + if |line| >= 2 && line[..2] == "m=" then [line, "b=AS:512"] else [line]
  {
    WithBandwidthLast(lines, line);
    assert "m=" <= line <==> |line| >= 2 && line[..2] == "m=";
  }

  /** Lines end at newlines, and only there. */
  lemma NewlinesSeparate(line: string, text: string)
    requires '\n' !in line
    ensures Split(line) == [line] && Split(line + "\n" + text) == [line] + Split(text)
  {
    SplitLine(line);
    SplitFirstLine(line, text);
  }

  /** Every media line is followed by the bandwidth line, and that adds one line per media line. */
  lemma {:induction false} BandwidthFollowsMedia(lines: seq<string>)
    ensures var limited := WithBandwidth(lines);
            && |limited| == |lines| + |MediaIndices(lines)|
            && forall i | 0 <= i < |limited| && "m=" <= limited[i] ::
                 i + 1 < |limited| && limited[i + 1] == "b=AS:512"
  {
    if lines != [] {
      var init, last := lines[..|lines| - 1], |lines| - 1;
      BandwidthFollowsMedia(init);
      assert BANDWIDTH[0] != "m="[0];
      assert MediaIndices(lines) == if IsMedia(lines[last]) then MediaIndices(init) + {last} else MediaIndices(init);
    } else {
      assert MediaIndices(lines) == {};
    }
  }

  lemma {:induction false} LimitedLinesAreLines(lines: seq<string>)
    requires forall line | line in lines :: IsLine(line)
    ensures forall line | line in WithBandwidth(lines) :: IsLine(line)
    ensures lines != [] ==> WithBandwidth(lines) != []
  {
    if lines == [] {
    } else {
      LimitedLinesAreLines(lines[..|lines| - 1]);
    }
  }

  function Modified(text: string): string {
    LimitedLinesAreLines(Split(text));
    Join(WithBandwidth(Split(text)))
  }

  /** The modified text splits into the limited lines, and deleting the inserted ones gives back the text. */
  lemma ModificationIsReversible(text: string)
    ensures Split(Modified(text)) == WithBandwidth(Split(text))
    ensures WithoutBandwidth(Split(Modified(text))) == Split(text)
    ensures Join(WithoutBandwidth(Split(Modified(text)))) == text
  {
    LimitedLinesAreLines(Split(text));
    SplitUndoesJoin(WithBandwidth(Split(text)));
    DeletingUndoesInserting(Split(text));
    JoinUndoesSplit(text);
  }

  /** `n` of the original lines are scanned, up to `index`, and the rest are still as they were. */
  ghost predicate Scanned(original: seq<string>, n: nat, lines: seq<string>, index: nat) {
    && n <= |original|
    && index == |WithBandwidth(original[..n])|
    && lines == WithBandwidth(original[..n]) + original[n..]
  }

  lemma ScanOneMore(original: seq<string>, n: nat, lines: seq<string>, index: nat)
    requires Scanned(original, n, lines, index) && index < |lines|
    ensures IsMedia(lines[index]) ==>
      Scanned(original, n + 1, lines[..index + 1] + [BANDWIDTH] + lines[index + 1..], index + 2)
    ensures !IsMedia(lines[index]) ==> Scanned(original, n + 1, lines, index + 1)
  {
    var done, line, rest := WithBandwidth(original[..n]), original[n], original[n + 1..];
    assert original[..n + 1] == original[..n] + [line] && original[n..] == [line] + rest;
    WithBandwidthLast(original[..n], line);
    assert lines == done + [line] + rest;
    assert lines[..index + 1] == done + [line] && lines[index + 1..] == rest;
  }

  lemma ScanBegins(original: seq<string>)
    ensures Scanned(original, 0, original, 0)
  {
  }

  lemma ScanEnds(sdp: string, n: nat, lines: seq<string>, index: nat)
    requires Scanned(Split(sdp), n, lines, index) && index >= |lines|
    ensures lines != [] && Join(lines) == Modified(sdp)
  {
    var original := Split(sdp);
    assert original[..n] == original && lines == WithBandwidth(original);
    LimitedLinesAreLines(original);
  }

  /** Inserts into the list it scans; the scan ends because each insertion is skipped. */
  method MotifyRemoteSdp(sdp: string) returns (modified: string)
    ensures modified == Modified(sdp)
  {
    var lines := Split(sdp);
    ghost var original, n := lines, 0;
    ScanBegins(original);
    var index := 0;
    while index < |lines|
      invariant Scanned(original, n, lines, index)
      decreases |lines| - index
    {
      ScanOneMore(original, n, lines, index);
      n := n + 1;
      if IsMedia(lines[index]) {
        lines := lines[..index + 1] + [BANDWIDTH] + lines[index + 1..];
        index := index + 1;
      }
      index := index + 1;
    }
    ScanEnds(sdp, n, lines, index);
    return Join(lines);
  }
}
