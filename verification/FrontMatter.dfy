/** Splitting a template file into its optional front matter and its body. */
module FrontMatter {
  import opened Prelude

  const OPENING := "---\n"
  const CLOSING := "\n---"

  predicate ClosesAt(s: string, i: nat) {
    i + |CLOSING| <= |s| && s[i..i + |CLOSING|] == CLOSING
  }

  predicate Closes(s: string) {
    exists i: nat :: i < |s| && ClosesAt(s, i)
  }

  /** Position of the first closing delimiter at or after `i`. */
  function IndexClosing(s: string, i: nat): (r: Option<nat>)
    ensures r.None? ==> forall j: nat :: i <= j ==> !ClosesAt(s, j)
    ensures r.Some? ==> i <= r.value && ClosesAt(s, r.value) && forall j: nat :: i <= j < r.value ==> !ClosesAt(s, j)
    decreases |s| - i
  {
    if i >= |s| then None
    else if ClosesAt(s, i) then Some(i)
    else IndexClosing(s, i + 1)
  }

  datatype Split = Plain(body: string) | Parts(header: string, body: string) | Unclosed

  function SplitRaw(content: string): Split {
    if !(OPENING <= content) then Plain(content)
    else
      var rest := content[|OPENING|..];
      match IndexClosing(rest, 0)
      case None => Unclosed
      case Some(end) =>
        var body := rest[end + |CLOSING|..];
        Parts(rest[..end], if "\n" <= body then body[1..] else body)
  }

  /** The file a header and a body are written as. */
  function Print(header: string, body: string): string {
    OPENING + header + CLOSING + "\n" + body
  }

  lemma DelimiterRunes(s: string, i: nat)
    ensures ClosesAt(s, i) ==> s[i] == '\n' && s[i + 1] == s[i + 2] == s[i + 3] == '-'
  {
    if ClosesAt(s, i) {
      var d := s[i..i + 4];
      assert s[i] == d[0] && s[i + 1] == d[1] && s[i + 2] == d[2] && s[i + 3] == d[3];
    }
  }

  /** A closing delimiter cannot overlap another: if `y` holds none, the first
      one in `y` followed by a delimiter is that delimiter. */
  lemma NoOverlap(y: string, tail: string, j: nat)
    requires !Closes(y)
    ensures ClosesAt(y + CLOSING + tail, |y|)
    ensures j < |y| ==> !ClosesAt(y + CLOSING + tail, j)
  {
    var s := y + CLOSING + tail;
    assert s[|y|..|y| + 4] == CLOSING;
    DelimiterRunes(s, |y|);
    if j < |y| {
      DelimiterRunes(s, j);
      assert j + 4 <= |y| ==> s[j..j + 4] == y[j..j + 4];
      assert j + 4 <= |y| && ClosesAt(s, j) ==> ClosesAt(y, j);
    }
  }

  /** Content that opens, and whose header `y` holds no delimiter, splits at the delimiter
      after `y`; one newline after it is dropped, whatever follows. */
  lemma ClosedSplits(y: string, rest: string)
    requires !Closes(y)
    ensures SplitRaw("---\n" + y + "\n---" + rest) == Parts(y, if "\n" <= rest then rest[1..] else rest)
  {
    var content := "---\n" + y + "\n---" + rest;
    var tail := content[|OPENING|..];
    assert OPENING <= content && tail == y + CLOSING + rest;
    forall j: nat | j < |y| ensures !ClosesAt(tail, j) {
      NoOverlap(y, rest, j);
    }
    NoOverlap(y, rest, 0);
    assert IndexClosing(tail, 0) == Some(|y|);
    assert tail[|y| + |CLOSING|..] == rest && tail[..|y|] == y;
  }

  /** Printing and splitting give back the parts exactly when the header does not
      itself hold a closing delimiter; the body may be anything. */
  lemma PrintedSplitsBack(y: string, b: string)
    ensures SplitRaw(Print(y, b)) == Parts(y, b) <==> !Closes(y)
  {
    var content := Print(y, b);
    var rest := content[|OPENING|..];
    assert rest == y + CLOSING + ("\n" + b);
    if !Closes(y) {
      forall j: nat | j < |y| ensures !ClosesAt(rest, j) {
        NoOverlap(y, "\n" + b, j);
      }
      NoOverlap(y, "\n" + b, 0);
      assert IndexClosing(rest, 0) == Some(|y|);
      assert rest[|y| + 4..] == "\n" + b;
      assert rest[..|y|] == y;
    } else {
      var i: nat :| i < |y| && ClosesAt(y, i);
      assert rest[i..i + 4] == y[i..i + 4];
      assert ClosesAt(rest, i);
    }
  }

  lemma SplitHeader(rest: string, end: nat)
    requires IndexClosing(rest, 0) == Some(end)
    ensures !Closes(rest[..end])
  {
    var y := rest[..end];
    forall i: nat | i < |y| ensures !ClosesAt(y, i) {
      assert !ClosesAt(rest, i);
      assert i + 4 <= |y| ==> rest[i..i + 4] == y[i..i + 4];
    }
  }

  lemma SplitShape(rest: string, end: nat)
    requires IndexClosing(rest, 0) == Some(end)
    ensures rest == rest[..end] + CLOSING + rest[end + |CLOSING|..]
  {
    assert rest[end..end + |CLOSING|] == CLOSING;
    assert rest == rest[..end] + rest[end..end + |CLOSING|] + rest[end + |CLOSING|..];
  }

  lemma SplitParts(content: string, y: string, b: string) returns (body: string)
    requires SplitRaw(content) == Parts(y, b)
    ensures content == OPENING + y + CLOSING + body
    ensures b == if "\n" <= body then body[1..] else body
    ensures !Closes(y)
  {
    var rest := content[|OPENING|..];
    assert content == OPENING + rest;
    SplitHeader(rest, |y|);
    SplitShape(rest, |y|);
    body := rest[|y| + |CLOSING|..];
    assert OPENING + (y + CLOSING + body) == OPENING + y + CLOSING + body;
  }

  /** Taking one newline off what follows `p`. */
  lemma AtMostOneNewlineLost(p: string, body: string, b: string)
    requires b == if "\n" <= body then body[1..] else body
    ensures p + body == p + b || p + body == p + "\n" + b
    ensures p + body == p + b ==> !("\n" <= b)
  {
    if "\n" <= body {
      assert p + body == p + "\n" + b;
      assert |p + body| == |p + b| + 1;
    }
  }

  /** What a successful split says about the file: the header ends at the first
      delimiter, nothing but one newline is lost, and the split is stable. */
  lemma SplitIsStable(content: string, y: string, b: string)
    requires SplitRaw(content) == Parts(y, b)
    ensures !Closes(y) && SplitRaw(Print(y, b)) == Parts(y, b)
    ensures content == OPENING + y + CLOSING + b || content == OPENING + y + CLOSING + "\n" + b
    ensures content == OPENING + y + CLOSING + b ==> !("\n" <= b)
  {
    var body := SplitParts(content, y, b);
    PrintedSplitsBack(y, b);
    AtMostOneNewlineLost(OPENING + y + CLOSING, body, b);
  }

  /** Content is refused exactly when it opens front matter that never closes. */
  lemma RefusedOnlyUnclosed(content: string)
    ensures SplitRaw(content).Plain? <==> !(OPENING <= content)
    ensures SplitRaw(content).Plain? ==> SplitRaw(content).body == content
    ensures SplitRaw(content).Unclosed? <==> OPENING <= content && !Closes(content[|OPENING|..])
  {
    if OPENING <= content {
      var rest := content[|OPENING|..];
      assert IndexClosing(rest, 0).None? <==> !Closes(rest);
    }
  }

  /** The opening line keeps its newline, so two delimiter lines in a row do not
      close: an empty block is an error unless a later line closes it. */
  lemma EmptyBlockDoesNotClose(b: string)
    ensures SplitRaw("---\n---\n" + b).Unclosed? <==> !Closes("\n" + b)
  {
    var content := "---\n---\n" + b;
    var tail := "\n" + b;
    RefusedOnlyUnclosed(content);
    assert content[|OPENING|..] == "---" + tail;
    ShiftedCloses(tail);
  }

  lemma ShiftedCloses(tail: string)
    ensures Closes("---" + tail) <==> Closes(tail)
  {
    var s := "---" + tail;
    forall i: nat | i + 4 <= |tail| ensures ClosesAt(s, i + 3) <==> ClosesAt(tail, i) {
      assert s[i + 3..i + 7] == tail[i..i + 4];
    }
    forall i: nat | i < 3 ensures !ClosesAt(s, i) {
      DelimiterRunes(s, i);
    }
    if Closes(s) {
      var i: nat :| i < |s| && ClosesAt(s, i);
      assert ClosesAt(tail, i - 3);
    }
    if Closes(tail) {
      var i: nat :| i < |tail| && ClosesAt(tail, i);
      assert ClosesAt(s, i + 3);
    }
  }
}
