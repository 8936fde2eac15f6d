/** The block splitter of the plan-log parser. */
module LogSplitter {
  import opened Common

  /** A log line: whether it matches the general header pattern, and whether it is a plan header dated within the window. */
  datatype Line = Line(header: bool, plan: bool, text: string)

  type Block = seq<Line>

  function Flatten(blocks: seq<Block>): Block {
    if blocks == [] then [] else Flatten(Init(blocks)) + Last(blocks)
  }

  predicate NoHeader(block: Block) {
    forall i | 0 <= i < |block| :: !block[i].header
  }

  /** A header line followed by lines that are not. */
  predicate Headed(block: Block) {
    block != [] && block[0].header && NoHeader(block[1..])
  }

  /** A headerless block first, then blocks that start with their only header. */
  predicate Shaped(blocks: seq<Block>) {
    blocks != [] && NoHeader(blocks[0]) && forall k | 0 < k < |blocks| :: Headed(blocks[k])
  }

  /** The blocks consumed for one file. */
  function Split(lines: seq<Line>): (r: seq<Block>)
    ensures r != []
  {
    if lines == [] then [[]] else
      var front := Split(Init(lines));
      if Last(lines).header then front + [[Last(lines)]]
      else Init(front) + [Last(front) + [Last(lines)]]
  }

  function SplitAll(files: seq<seq<Line>>): seq<Block> {
    if files == [] then [] else SplitAll(Init(files)) + Split(Last(files))
  }

  /** The lines of one file: `current` is consumed at every header and at the end. */
  method RunFile(lines: seq<Line>) returns (consumed: seq<Block>)
    ensures consumed == Split(lines)
  {
    consumed := [];
    var current: Block := [];
    for i := 0 to |lines|
      invariant current == Last(Split(lines[..i])) && consumed == Init(Split(lines[..i]))
    {
      assert Init(lines[..i + 1]) == lines[..i];
      ghost var front := Split(lines[..i]);
      if lines[i].header {
        assert consumed + [current] == front;
        consumed := consumed + [current];
        current := [lines[i]];
      } else {
        current := current + [lines[i]];
      }
    }
    assert lines[..|lines|] == lines;
    consumed := consumed + [current];
  }

  /** The loop over the files. */
  method Run(files: seq<seq<Line>>) returns (consumed: seq<Block>)
    ensures consumed == SplitAll(files)
  {
    consumed := [];
    for f := 0 to |files|
      invariant consumed == SplitAll(files[..f])
    {
      var blocks := RunFile(files[f]);
      consumed := consumed + blocks;
      assert Init(files[..f + 1]) == files[..f];
    }
    assert files[..|files|] == files;
  }

  // ---- Lossless, and the only such split ---------------------------------------------------------

  lemma {:induction false} FlattenAppend(blocks: seq<Block>, block: Block)
    ensures Flatten(blocks + [block]) == Flatten(blocks) + block
  {
    assert Init(blocks + [block]) == blocks;
  }

  lemma {:induction false} FlattenOne(block: Block)
    ensures Flatten([block]) == block
  {
    var none: seq<Block> := [];
    FlattenAppend(none, block);
    assert none + [block] == [block];
  }

  lemma {:induction false} FlattenExtended(blocks: seq<Block>, line: Line)
    requires blocks != []
    ensures Flatten(Init(blocks) + [Last(blocks) + [line]]) == Flatten(blocks) + [line]
  {
    var front, last := Init(blocks), Last(blocks);
    assert blocks == front + [last];
    FlattenAppend(front, last);
    FlattenAppend(front, last + [line]);
    assert Flatten(front) + (last + [line]) == (Flatten(front) + last) + [line];
  }

  lemma {:induction false} ShapedNext(blocks: seq<Block>, line: Line)
    requires Shaped(blocks) && line.header
    ensures Shaped(blocks + [[line]])
  {
  }

  lemma {:induction false} SplitIsLossless(lines: seq<Line>)
    ensures Flatten(Split(lines)) == lines && Shaped(Split(lines))
  {
    if lines == [] {
      FlattenOne([]);
    } else {
      var front, line := Split(Init(lines)), Last(lines);
      SplitIsLossless(Init(lines));
      assert lines == Init(lines) + [line];
      if line.header {
        FlattenAppend(front, [line]);
        ShapedNext(front, line);
      } else {
        FlattenExtended(front, line);
        ExtendsShape(front, line);
      }
    }
  }

  lemma {:induction false} ExtendsShape(blocks: seq<Block>, line: Line)
    requires Shaped(blocks) && !line.header
    ensures Shaped(Init(blocks) + [Last(blocks) + [line]])
  {
    var last := Last(blocks);
    if |blocks| > 1 {
      assert (last + [line])[1..] == last[1..] + [line];
    }
  }

  /** The shape determines the split. */
  lemma {:induction false} SplitIsUnique(lines: seq<Line>, blocks: seq<Block>)
    requires Shaped(blocks) && Flatten(blocks) == lines
    ensures blocks == Split(lines)
  {
    assert blocks == Init(blocks) + [Last(blocks)];
    FlattenAppend(Init(blocks), Last(blocks));
    if lines == [] {
      assert Last(blocks) == [];
      assert |blocks| == 1;
    } else {
      var line := Last(lines);
      if Last(blocks) == [] {
        assert false;
      } else if |blocks| > 1 && |Last(blocks)| == 1 {
        assert Last(blocks) == [line];
        assert Flatten(Init(blocks)) == Init(lines);
        SplitIsUnique(Init(lines), Init(blocks));
      } else {
        ShrinksShape(blocks);
        var shorter := Init(blocks) + [Init(Last(blocks))];
        FlattenAppend(Init(blocks), Init(Last(blocks)));
        assert Last(blocks) == Init(Last(blocks)) + [line];
        assert Flatten(shorter) == Init(lines);
        SplitIsUnique(Init(lines), shorter);
      }
    }
  }

  lemma {:induction false} ShrinksShape(blocks: seq<Block>)
    requires Shaped(blocks) && Last(blocks) != [] && (|blocks| == 1 || |Last(blocks)| > 1)
    ensures Shaped(Init(blocks) + [Init(Last(blocks))]) && !Last(Last(blocks)).header
  {
    var last := Last(blocks);
    if |blocks| > 1 {
      assert Init(last)[1..] == Init(last[1..]);
      assert last[1..][|last| - 2] == Last(last);
    }
  }

  // ---- Plans -------------------------------------------------------------------------------------

  function PlanLines(lines: seq<Line>): nat {
    if lines == [] then 0 else PlanLines(Init(lines)) + if Last(lines).plan then 1 else 0
  }

  /** The blocks that `consume` turns into plan records: those whose first line is a plan header within the window. */
  function PlanBlocks(blocks: seq<Block>): nat {
    if blocks == [] then 0 else
      PlanBlocks(Init(blocks)) + if Last(blocks) != [] && Last(blocks)[0].plan then 1 else 0
  }

  lemma {:induction false} PlanBlocksAppend(blocks: seq<Block>, block: Block)
    ensures PlanBlocks(blocks + [block]) == PlanBlocks(blocks) + if block != [] && block[0].plan then 1 else 0
  {
    assert Init(blocks + [block]) == blocks;
  }

  /** Every plan header within the window starts one record, and nothing else does. */
  lemma {:induction false} PlansAreKept(lines: seq<Line>)
    requires forall i | 0 <= i < |lines| :: lines[i].plan ==> lines[i].header
    ensures PlanBlocks(Split(lines)) == PlanLines(lines)
  {
    if lines == [] {
      var none: seq<Block> := [];
      PlanBlocksAppend(none, []);
      assert none + [[]] == Split(lines);
    } else {
      var front, line := Split(Init(lines)), Last(lines);
      PlansAreKept(Init(lines));
      if line.header {
        PlanBlocksAppend(front, [line]);
      } else {
        assert front == Init(front) + [Last(front)];
        PlanBlocksAppend(Init(front), Last(front));
        PlanBlocksAppend(Init(front), Last(front) + [line]);
      }
    }
  }
}
