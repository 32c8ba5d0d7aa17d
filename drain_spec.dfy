/** What draining the two output pipes produces. Each pass of the drain loop
    reads at most one line from stdout and then at most one line from stderr,
    and appends each line it got unless PHP reads it as false. */
module DrainSpec {
  import opened PhpValues
  import opened OsModel

  /** What one read contributes to the output: the line itself, or nothing
      when the read gave false or a line PHP reads as false (a bare "0"). */
  function Piece(r: Read): (p: string)
    ensures p != "" <==> r.Line? && IsTruthy(r.text)
    ensures p != "" ==> p == r.text
  {
    if r.Line? && IsTruthy(r.text) then r.text else ""
  }

  /** The output of the next read on a script, as a list of zero or one
      non-empty chunks. */
  function NextChunk(script: seq<Read>): (c: seq<string>)
    ensures |c| <= 1
  {
    var p := Piece(First(script));
    if p == "" then [] else [p]
  }

  /** The lines a script contributes, in order. */
  function Kept(script: seq<Read>): seq<string>
    decreases |script|
  {
    if script == [] then [] else NextChunk(script) + Kept(script[1..])
  }

  /** The chunks the drain loop appends, pass by pass, until both pipes are
      at end-of-file. */
  function DrainedChunks(out: seq<Read>, err: seq<Read>): seq<string>
    decreases |out| + |err|
  {
    if out == [] && err == [] then []
    else NextChunk(out) + NextChunk(err) + DrainedChunks(Rest(out), Rest(err))
  }

  function Concat(chunks: seq<string>): string
    decreases |chunks|
  {
    if chunks == [] then "" else chunks[0] + Concat(chunks[1..])
  }

  /** The combined output of a drain. */
  function DrainedOutput(out: seq<Read>, err: seq<Read>): string
  {
    Concat(DrainedChunks(out, err))
  }

  /** c is a shuffle of a and b: it holds exactly their elements, and keeps
      the order each of them has. */
  ghost predicate Interleaves(c: seq<string>, a: seq<string>, b: seq<string>)
    decreases |c|
  {
    if c == [] then a == [] && b == []
    else
      (a != [] && c[0] == a[0] && Interleaves(c[1..], a[1..], b)) ||
      (b != [] && c[0] == b[0] && Interleaves(c[1..], a, b[1..]))
  }

  lemma {:induction false} ConcatAppend(a: seq<string>, b: seq<string>)
    ensures Concat(a + b) == Concat(a) + Concat(b)
    decreases |a|
  {
    if a == [] {
      assert a + b == b;
    } else {
      assert (a + b)[1..] == a[1..] + b;
      ConcatAppend(a[1..], b);
    }
  }

  /** Appending the next read's contribution appends its chunk. */
  lemma NextChunkConcat(script: seq<Read>)
    ensures Concat(NextChunk(script)) == Piece(First(script))
  {
    var p := Piece(First(script));
    if p != "" {
      assert Concat([p]) == p + Concat([]);
    }
  }

  /** One pass of the drain loop appends the next chunk of each pipe. */
  lemma DrainStepChunks(chunks: seq<string>, out: seq<Read>, err: seq<Read>)
    requires out != [] || err != []
    ensures chunks + DrainedChunks(out, err) ==
      (chunks + NextChunk(out) + NextChunk(err)) + DrainedChunks(Rest(out), Rest(err))
  {
    DrainedChunksUnfold(out, err);
    AppendRegroup(chunks, NextChunk(out), NextChunk(err), DrainedChunks(Rest(out), Rest(err)));
  }

  lemma DrainedChunksUnfold(out: seq<Read>, err: seq<Read>)
    requires out != [] || err != []
    ensures DrainedChunks(out, err) == NextChunk(out) + NextChunk(err) + DrainedChunks(Rest(out), Rest(err))
  {
  }

  lemma AppendRegroup(s: seq<string>, a: seq<string>, b: seq<string>, c: seq<string>)
    ensures s + (a + b + c) == (s + a + b) + c
  {
  }

  /** Whether some pass of the drain meets a read that raises. Every pass
      reads stdout and then stderr, so a raise on stdout ends the drain
      before that pass reads stderr; either way the drain raises. */
  function Raises(out: seq<Read>, err: seq<Read>): bool
    decreases |out| + |err|
  {
    if out == [] && err == [] then false
    else First(out).Raised? || First(err).Raised? || Raises(Rest(out), Rest(err))
  }

  /** The drain runs until both pipes are exhausted, so it meets every read
      either pipe would give: it raises exactly when one of them raises. */
  lemma {:induction false} RaisesIffSomeReadRaises(out: seq<Read>, err: seq<Read>)
    ensures Raises(out, err) <==> (Raised in out || Raised in err)
    decreases |out| + |err|
  {
    if out != [] || err != [] {
      RaisesIffSomeReadRaises(Rest(out), Rest(err));
      ScriptSplit(out);
      ScriptSplit(err);
    }
  }

  /** A script is its first read followed by the rest, unless it is empty. */
  lemma ScriptSplit(script: seq<Read>)
    ensures Raised in script <==> (script != [] && First(script).Raised?) || Raised in Rest(script)
  {
    if script != [] {
      assert script == [script[0]] + Rest(script);
    }
  }

  /** The drain loop's bookkeeping: the chunks read so far followed by the
      chunks still to come make up the whole drain, and the output is the
      concatenation of the chunks read so far. */
  ghost predicate DrainedSoFar(chunks: seq<string>, output: string, out: seq<Read>, err: seq<Read>, whole: seq<string>)
  {
    chunks + DrainedChunks(out, err) == whole && output == Concat(chunks)
  }

  /** One pass of the drain loop, one read from each pipe, keeps the
      bookkeeping. */
  lemma DrainPass(chunks: seq<string>, output: string, out: seq<Read>, err: seq<Read>, whole: seq<string>)
    requires out != [] || err != []
    requires DrainedSoFar(chunks, output, out, err, whole)
    ensures DrainedSoFar(chunks + NextChunk(out) + NextChunk(err),
      output + Piece(First(out)) + Piece(First(err)), Rest(out), Rest(err), whole)
  {
    DrainStepChunks(chunks, out, err);
    DrainStepOutput(chunks, out, err);
  }

  /** Once both pipes are exhausted the output is the whole drain. */
  lemma DrainFinished(chunks: seq<string>, output: string, out: seq<Read>, err: seq<Read>)
    requires DrainedSoFar(chunks, output, [], [], DrainedChunks(out, err))
    ensures output == DrainedOutput(out, err)
  {
    assert DrainedChunks([], []) == [];
    assert chunks + [] == chunks;
  }

  /** One pass of the drain loop appends the next piece of each pipe. */
  lemma DrainStepOutput(chunks: seq<string>, out: seq<Read>, err: seq<Read>)
    ensures Concat(chunks + NextChunk(out) + NextChunk(err)) ==
      Concat(chunks) + Piece(First(out)) + Piece(First(err))
  {
    NextChunkConcat(out);
    NextChunkConcat(err);
    ConcatAppend(chunks, NextChunk(out));
    ConcatAppend(chunks + NextChunk(out), NextChunk(err));
  }

  lemma PrependLeft(x: seq<string>, c: seq<string>, a: seq<string>, b: seq<string>)
    requires |x| <= 1
    requires Interleaves(c, a, b)
    ensures Interleaves(x + c, x + a, b)
  {
    if |x| == 1 {
      assert (x + c)[1..] == c && (x + a)[1..] == a;
    } else {
      assert x + c == c && x + a == a;
    }
  }

  lemma PrependRight(x: seq<string>, c: seq<string>, a: seq<string>, b: seq<string>)
    requires |x| <= 1
    requires Interleaves(c, a, b)
    ensures Interleaves(x + c, a, x + b)
  {
    if |x| == 1 {
      assert (x + c)[1..] == c && (x + b)[1..] == b;
    } else {
      assert x + c == c && x + b == b;
    }
  }

  lemma KeptUnfold(script: seq<Read>)
    ensures Kept(script) == NextChunk(script) + Kept(Rest(script))
  {
    if script == [] {
      assert NextChunk(script) == [];
    }
  }

  /** The drained output is a shuffle of what stdout contributes and what
      stderr contributes: nothing is lost, nothing is added, and each pipe's
      lines appear in the order they were read. */
  lemma {:induction false} DrainedInterleaves(out: seq<Read>, err: seq<Read>)
    ensures Interleaves(DrainedChunks(out, err), Kept(out), Kept(err))
    decreases |out| + |err|
  {
    if out == [] && err == [] {
      assert Kept(out) == [] && Kept(err) == [];
    } else {
      DrainedInterleaves(Rest(out), Rest(err));
      DrainedChunksUnfold(out, err);
      KeptUnfold(out);
      KeptUnfold(err);
      PrependBoth(NextChunk(out), NextChunk(err), DrainedChunks(Rest(out), Rest(err)),
        Kept(Rest(out)), Kept(Rest(err)), DrainedChunks(out, err), Kept(out), Kept(err));
    }
  }

  /** Putting at most one element in front of each source, and both in front
      of the shuffle, keeps it a shuffle. */
  lemma PrependBoth(x: seq<string>, y: seq<string>, c: seq<string>, a: seq<string>, b: seq<string>,
                    whole: seq<string>, left: seq<string>, right: seq<string>)
    requires |x| <= 1 && |y| <= 1
    requires Interleaves(c, a, b)
    requires whole == x + y + c && left == x + a && right == y + b
    ensures Interleaves(whole, left, right)
  {
    PrependRight(y, c, a, b);
    PrependLeft(x, y + c, a, y + b);
    assert x + (y + c) == whole;
  }

  /** A shuffle holds each element as often as its two sources together. */
  lemma {:induction false} InterleavesMultiset(c: seq<string>, a: seq<string>, b: seq<string>)
    requires Interleaves(c, a, b)
    ensures multiset(c) == multiset(a) + multiset(b)
    decreases |c|
  {
    if c != [] {
      assert c == [c[0]] + c[1..];
      if a != [] && c[0] == a[0] && Interleaves(c[1..], a[1..], b) {
        InterleavesMultiset(c[1..], a[1..], b);
        assert a == [a[0]] + a[1..];
      } else {
        InterleavesMultiset(c[1..], a, b[1..]);
        assert b == [b[0]] + b[1..];
      }
    }
  }

  /** Every line either pipe contributes shows up in the drained output, as
      many times as it was read. */
  lemma DrainedKeepsEveryLine(out: seq<Read>, err: seq<Read>)
    ensures multiset(DrainedChunks(out, err)) == multiset(Kept(out)) + multiset(Kept(err))
  {
    DrainedInterleaves(out, err);
    InterleavesMultiset(DrainedChunks(out, err), Kept(out), Kept(err));
  }

  /** A read that ends with a newline is never dropped. A read that returns
      exactly "0" always is, because PHP reads that string as false: the last,
      unterminated piece of output, but also a partial read in mid-stream. */
  lemma TerminatedLineKept(text: string)
    requires text != [] && text[|text| - 1] == '\n'
    ensures Piece(Line(text)) == text
  {
    assert text != "0";
  }

  /** A child that prints just "0" with no newline yields empty output. */
  lemma BareZeroDropped()
    ensures DrainedOutput([Line("0")], []) == ""
  {
    assert NextChunk([Line("0")]) == [];
    assert DrainedChunks([], []) == [];
  }

  /** A child that flushes "1", then "0", then a newline, each as its own
      partial read, loses the "0": the output is "1\n". */
  lemma MidStreamZeroDropped()
    ensures DrainedOutput([Line("1"), Line("0"), Line("\n")], []) == "1\n"
  {
    var s := [Line("1"), Line("0"), Line("\n")];
    assert Rest(s) == [Line("0"), Line("\n")] && Rest(Rest(s)) == [Line("\n")];
    assert NextChunk(s) == ["1"] && NextChunk(Rest(s)) == [];
    assert NextChunk(Rest(Rest(s))) == ["\n"] && Rest(Rest(Rest(s))) == [];
    assert DrainedChunks([], []) == [];
    assert DrainedChunks(Rest(Rest(s)), []) == ["\n"];
    assert DrainedChunks(Rest(s), []) == ["\n"];
    assert DrainedChunks(s, []) == ["1", "\n"];
    assert Concat(["1", "\n"]) == "1\n";
  }

  /** Every line a pipe's reads return that PHP reads as true is among the
      pipe's kept lines, however many empty or dropped reads came first. */
  lemma {:induction false} ReadLineKept(script: seq<Read>, i: nat)
    requires i < |script| && script[i].Line? && IsTruthy(script[i].text)
    ensures script[i].text in Kept(script)
    decreases i
  {
    KeptUnfold(script);
    if i == 0 {
      assert NextChunk(script) == [script[0].text];
    } else {
      assert Rest(script)[i - 1] == script[i];
      ReadLineKept(Rest(script), i - 1);
    }
  }

  /** Reads that find nothing ready do not end the drain: every line either
      pipe returns on any pass, and PHP reads as true, is in the output. */
  lemma LateLineKept(out: seq<Read>, err: seq<Read>)
    ensures forall i :: 0 <= i < |out| && out[i].Line? && IsTruthy(out[i].text) ==>
      out[i].text in DrainedChunks(out, err)
    ensures forall i :: 0 <= i < |err| && err[i].Line? && IsTruthy(err[i].text) ==>
      err[i].text in DrainedChunks(out, err)
  {
    DrainedKeepsEveryLine(out, err);
    forall i | 0 <= i < |out| && out[i].Line? && IsTruthy(out[i].text)
      ensures out[i].text in DrainedChunks(out, err)
    {
      ReadLineKept(out, i);
      assert out[i].text in multiset(DrainedChunks(out, err));
    }
    forall i | 0 <= i < |err| && err[i].Line? && IsTruthy(err[i].text)
      ensures err[i].text in DrainedChunks(out, err)
    {
      ReadLineKept(err, i);
      assert err[i].text in multiset(DrainedChunks(out, err));
    }
  }
}
