/**
  Text files built line by line: the layout shared by the timecoded
  transcript and the SRT file, independent of what the lines say.
*/
module Lines {
  import opened Text

  /** Each line followed by `"\n"`, in order: what a run of
      `f.write(line + "\n")` calls leaves in a file. */
  function Unlines(lines: seq<string>): string
  {
    if |lines| == 0 then "" else lines[0] + "\n" + Unlines(lines[1..])
  }

  /** Writing two runs of lines one after the other. */
  lemma {:induction false} UnlinesAppend(a: seq<string>, b: seq<string>)
    ensures Unlines(a + b) == Unlines(a) + Unlines(b)
  {
    if |a| == 0 {
      assert a + b == b;
    } else {
      assert (a + b)[1..] == a[1..] + b;
      UnlinesAppend(a[1..], b);
    }
  }

  /** One more line is one more `write(line + "\n")`. */
  lemma UnlinesSnoc(lines: seq<string>, line: string)
    ensures Unlines(lines + [line]) == Unlines(lines) + (line + "\n")
  {
    UnlinesAppend(lines, [line]);
    assert Unlines([line]) == line + "\n" + Unlines([]);
  }

  /** Three lines and a blank one are the single write
      `a + "\n" + b + "\n" + c + "\n\n"`. */
  lemma UnlinesBlankEnded(a: string, b: string, c: string)
    ensures Unlines([a, b, c, ""]) == a + "\n" + b + "\n" + c + "\n\n"
  {
    var ls := [a, b, c, ""];
    assert ls[1..] == [b, c, ""] && ls[2..] == [c, ""] && ls[3..] == [""] && ls[4..] == [];
    assert Unlines(ls[3..]) == "\n";
    assert Unlines(ls[2..]) == c + "\n" + "\n";
    assert c + "\n" + "\n" == c + "\n\n";
    assert Unlines(ls[1..]) == b + "\n" + c + "\n\n";
  }

  /** When no line holds a line break, splitting the file at `"\n"` gives
      back the lines, then the empty text after the final break. */
  lemma {:induction false} UnlinesSplit(lines: seq<string>)
    requires forall k :: 0 <= k < |lines| ==> '\n' !in lines[k]
    ensures Split(Unlines(lines), '\n') == lines + [""]
  {
    if |lines| == 0 {
      SplitNone("", '\n');
    } else {
      UnlinesSplit(lines[1..]);
      SplitAround(lines[0], '\n', Unlines(lines[1..]));
      assert lines == [lines[0]] + lines[1..];
    }
  }

  /** A prefix one longer is the prefix and the next element. */
  lemma TakeSnoc<T>(s: seq<T>, i: nat)
    requires i < |s|
    ensures s[..i + 1] == s[..i] + [s[i]]
  {
  }

  /** One block of lines per item, the items numbered from `first`. */
  function NumberedBlocks<T>(items: seq<T>, first: nat, block: (nat, T) -> seq<string>): seq<seq<string>>
  {
    seq(|items|, k requires 0 <= k < |items| => block(first + k, items[k]))
  }

  /** Numbering continues across a split of the items. */
  lemma NumberedBlocksAppend<T>(a: seq<T>, b: seq<T>, first: nat, block: (nat, T) -> seq<string>)
    ensures NumberedBlocks(a + b, first, block)
         == NumberedBlocks(a, first, block) + NumberedBlocks(b, first + |a|, block)
  {
    var l, r := NumberedBlocks(a + b, first, block), NumberedBlocks(a, first, block) + NumberedBlocks(b, first + |a|, block);
    forall k | 0 <= k < |l| ensures l[k] == r[k] {
      if k < |a| {
        assert (a + b)[k] == a[k];
      } else {
        assert (a + b)[k] == b[k - |a|];
        assert first + k == first + |a| + (k - |a|);
      }
    }
  }

  /** The blocks' lines, block after block. */
  function Flatten(blocks: seq<seq<string>>): seq<string>
  {
    if |blocks| == 0 then [] else blocks[0] + Flatten(blocks[1..])
  }

  lemma {:induction false} FlattenAppend(a: seq<seq<string>>, b: seq<seq<string>>)
    ensures Flatten(a + b) == Flatten(a) + Flatten(b)
  {
    if |a| == 0 {
      assert a + b == b;
    } else {
      assert (a + b)[1..] == a[1..] + b;
      FlattenAppend(a[1..], b);
    }
  }

  /** Blocks of four lines each. */
  predicate FourLineBlocks(blocks: seq<seq<string>>)
  {
    forall k :: 0 <= k < |blocks| ==> |blocks[k]| == 4
  }

  lemma {:induction false} FlattenLength(blocks: seq<seq<string>>)
    requires FourLineBlocks(blocks)
    ensures |Flatten(blocks)| == 4 * |blocks|
  {
    if |blocks| > 0 {
      FlattenLength(blocks[1..]);
    }
  }

  /** With blocks of four lines, block `i` occupies lines `4 * i` to
      `4 * i + 3`. */
  lemma {:induction false} FlattenBlock(blocks: seq<seq<string>>, i: nat)
    requires FourLineBlocks(blocks)
    requires i < |blocks|
    ensures |Flatten(blocks)| == 4 * |blocks|
    ensures Flatten(blocks)[4 * i .. 4 * i + 4] == blocks[i]
  {
    FlattenLength(blocks);
    FlattenLength(blocks[1..]);
    if i > 0 {
      FlattenBlock(blocks[1..], i - 1);
      assert blocks[1..][i - 1] == blocks[i];
      assert Flatten(blocks)[4 * i .. 4 * i + 4] == Flatten(blocks[1..])[4 * (i - 1) .. 4 * (i - 1) + 4];
    } else {
      assert Flatten(blocks) == blocks[0] + Flatten(blocks[1..]);
    }
  }

  /** A character absent from every line of every block is absent from
      every flattened line. */
  lemma {:induction false} FlattenAvoids(blocks: seq<seq<string>>, c: char)
    requires forall k, j :: 0 <= k < |blocks| && 0 <= j < |blocks[k]| ==> c !in blocks[k][j]
    ensures forall m :: 0 <= m < |Flatten(blocks)| ==> c !in Flatten(blocks)[m]
  {
    if |blocks| > 0 {
      FlattenAvoids(blocks[1..], c);
      assert forall k, j :: 0 <= k < |blocks[1..]| && 0 <= j < |blocks[1..][k]| ==> blocks[1..][k][j] == blocks[k + 1][j];
    }
  }
}
