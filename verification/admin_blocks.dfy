/** `AdminBlocksViewModel`: the blocks fetched for the administrator,
    grouped by level with the levels in ascending order, and the block
    whose detail dialog is open. */
module AdminBlocks {
  import opened Outcomes
  import opened Records
  import opened Api
  import opened Collections
  import AuthRepository

  // ---------------------------------------------------------------------
  // The order of a sorted map with string keys
  // ---------------------------------------------------------------------

  /** `String.compareTo(other) < 0`: the first differing character
      decides, and a proper prefix comes first. */
  predicate StrLess(a: string, b: string)
    decreases |a|
  {
    if |a| == 0 then |b| > 0
    else if |b| == 0 then false
    else if a[0] == b[0] then StrLess(a[1..], b[1..])
    else a[0] < b[0]
  }

  lemma {:induction false} StrLessIrreflexive(a: string)
    ensures !StrLess(a, a)
    decreases |a|
  {
    if |a| > 0 {
      StrLessIrreflexive(a[1..]);
    }
  }

  lemma {:induction false} StrLessTransitive(a: string, b: string, c: string)
    requires StrLess(a, b) && StrLess(b, c)
    ensures StrLess(a, c)
    decreases |a|
  {
    if |a| > 0 && a[0] == b[0] && b[0] == c[0] {
      StrLessTransitive(a[1..], b[1..], c[1..]);
    }
  }

  lemma {:induction false} StrLessTotal(a: string, b: string)
    ensures a == b || StrLess(a, b) || StrLess(b, a)
    decreases |a|
  {
    if |a| > 0 && |b| > 0 && a[0] == b[0] {
      StrLessTotal(a[1..], b[1..]);
      if a[1..] == b[1..] {
        assert a == [a[0]] + a[1..] && b == [b[0]] + b[1..];
      }
    }
  }

  /** Keys in strictly ascending order. */
  predicate SortedKeys(keys: seq<string>)
  {
    forall i, j :: 0 <= i < j < |keys| ==> StrLess(keys[i], keys[j])
  }

  /** Strictly ascending keys are distinct. */
  lemma SortedKeysDistinct(keys: seq<string>)
    requires SortedKeys(keys)
    ensures Distinct(keys)
  {
    forall i, j | 0 <= i < j < |keys| ensures keys[i] != keys[j] {
      if keys[i] == keys[j] {
        StrLessIrreflexive(keys[i]);
      }
    }
  }

  // ---------------------------------------------------------------------
  // groupBy { it.nivel }.toSortedMap()
  // ---------------------------------------------------------------------

  /** Adding a key to the key list of a sorted map. */
  function InsertKey(key: string, keys: seq<string>): (r: seq<string>)
    ensures forall k :: k in r <==> k == key || k in keys
    decreases |keys|
  {
    if |keys| == 0 then [key]
    else if key == keys[0] then keys
    else if StrLess(key, keys[0]) then [key] + keys
    else [keys[0]] + InsertKey(key, keys[1..])
  }

  lemma {:induction false} InsertKeySorted(key: string, keys: seq<string>)
    requires SortedKeys(keys)
    ensures SortedKeys(InsertKey(key, keys))
    decreases |keys|
  {
    if |keys| > 0 && key != keys[0] {
      if StrLess(key, keys[0]) {
        var r := [key] + keys;
        forall i, j | 0 <= i < j < |r| ensures StrLess(r[i], r[j]) {
          if i == 0 && j > 1 {
            StrLessTransitive(key, keys[0], keys[j - 1]);
          }
        }
      } else {
        StrLessTotal(key, keys[0]);
        var rest := InsertKey(key, keys[1..]);
        InsertKeySorted(key, keys[1..]);
        var r := [keys[0]] + rest;
        forall i, j | 0 <= i < j < |r| ensures StrLess(r[i], r[j]) {
          if i == 0 {
            assert r[j] == rest[j - 1];
            assert r[j] in rest;
          }
        }
      }
    }
  }

  /** The levels that occur among the blocks, each once, in ascending order. */
  function Levels(blocks: seq<Bloque>): (levels: seq<string>)
    ensures forall l :: l in levels <==> exists b :: b in blocks && b.nivel == l
    decreases |blocks|
  {
    if |blocks| == 0 then []
    else
      var rest := Levels(blocks[1..]);
      assert forall b :: b in blocks <==> b == blocks[0] || b in blocks[1..];
      InsertKey(blocks[0].nivel, rest)
  }

  lemma {:induction false} LevelsSorted(blocks: seq<Bloque>)
    ensures SortedKeys(Levels(blocks))
    decreases |blocks|
  {
    if |blocks| > 0 {
      LevelsSorted(blocks[1..]);
      InsertKeySorted(blocks[0].nivel, Levels(blocks[1..]));
    }
  }

  /** The blocks of one level, in the order of the response: `Filter` by
      level (`LevelGroupIsFilter`), written as its own recursion so that the
      grouping proofs unfold it without going through a closure. */
  function LevelGroup(blocks: seq<Bloque>, level: string): (g: seq<Bloque>)
    ensures forall b :: b in g <==> b in blocks && b.nivel == level
    decreases |blocks|
  {
    if |blocks| == 0 then []
    else
      assert forall b :: b in blocks <==> b == blocks[0] || b in blocks[1..];
      (if blocks[0].nivel == level then [blocks[0]] else []) + LevelGroup(blocks[1..], level)
  }

  /** A group is the response filtered by its level. */
  lemma {:induction false} LevelGroupIsFilter(blocks: seq<Bloque>, level: string)
    ensures LevelGroup(blocks, level) == Filter(blocks, (b: Bloque) => b.nivel == level)
    decreases |blocks|
  {
    if |blocks| > 0 {
      LevelGroupIsFilter(blocks[1..], level);
    }
  }

  /** Grouping distributes over concatenation: a group is its level's blocks
      from the first part followed by those from the second, so the blocks
      keep the order of the response within each group. */
  lemma {:induction false} LevelGroupAppend(xs: seq<Bloque>, ys: seq<Bloque>, level: string)
    ensures LevelGroup(xs + ys, level) == LevelGroup(xs, level) + LevelGroup(ys, level)
    decreases |xs|
  {
    if |xs| == 0 {
      assert xs + ys == ys;
    } else {
      assert (xs + ys)[0] == xs[0];
      assert (xs + ys)[1..] == xs[1..] + ys;
      LevelGroupAppend(xs[1..], ys, level);
    }
  }

  /** One entry of the sorted map: a level and its blocks. */
  type LevelEntry = (string, seq<Bloque>)

  /** The entries for the given keys, in key order. */
  function GroupsFor(blocks: seq<Bloque>, levels: seq<string>): (groups: seq<LevelEntry>)
    ensures |groups| == |levels|
    ensures forall i :: 0 <= i < |groups| ==> groups[i].0 == levels[i]
    ensures forall i, b :: 0 <= i < |groups| ==> (b in groups[i].1 <==> b in blocks && b.nivel == levels[i])
    decreases |levels|
  {
    if |levels| == 0 then []
    else [(levels[0], LevelGroup(blocks, levels[0]))] + GroupsFor(blocks, levels[1..])
  }

  /** `blocks.groupBy { it.nivel }.toSortedMap()`. */
  function GroupByLevel(blocks: seq<Bloque>): (groups: seq<LevelEntry>)
  {
    GroupsFor(blocks, Levels(blocks))
  }

  function Keys(groups: seq<LevelEntry>): (keys: seq<string>)
    ensures |keys| == |groups|
    ensures forall i :: 0 <= i < |groups| ==> keys[i] == groups[i].0
  {
    seq(|groups|, i requires 0 <= i < |groups| => groups[i].0)
  }

  /** The number of blocks the map holds. */
  function TotalSize(groups: seq<LevelEntry>): nat
    decreases |groups|
  {
    if |groups| == 0 then 0 else |groups[0].1| + TotalSize(groups[1..])
  }

  lemma {:induction false} GroupsForEmpty(levels: seq<string>)
    ensures TotalSize(GroupsFor([], levels)) == 0
    decreases |levels|
  {
    if |levels| > 0 {
      GroupsForEmpty(levels[1..]);
    }
  }

  /** One more block adds one to the map's size when its level is a key. */
  lemma {:induction false} GroupsForCons(x: Bloque, xs: seq<Bloque>, levels: seq<string>)
    requires Distinct(levels)
    ensures TotalSize(GroupsFor([x] + xs, levels)) == TotalSize(GroupsFor(xs, levels)) + (if x.nivel in levels then 1 else 0)
    decreases |levels|
  {
    if |levels| > 0 {
      var rest := levels[1..];
      assert Distinct(rest) by {
        forall i, j | 0 <= i < j < |rest| ensures rest[i] != rest[j] {
          assert rest[i] == levels[i + 1] && rest[j] == levels[j + 1];
        }
      }
      assert levels[0] !in rest by {
        forall k | 0 <= k < |rest| ensures rest[k] != levels[0] {
          assert rest[k] == levels[k + 1];
        }
      }
      GroupsForCons(x, xs, rest);
      assert ([x] + xs)[1..] == xs;
      assert x.nivel in levels <==> x.nivel == levels[0] || x.nivel in rest;
    }
  }

  /** When every block's level is a key, the entries hold every block once. */
  lemma {:induction false} GroupsForCount(blocks: seq<Bloque>, levels: seq<string>)
    requires Distinct(levels)
    requires forall b :: b in blocks ==> b.nivel in levels
    ensures TotalSize(GroupsFor(blocks, levels)) == |blocks|
    decreases |blocks|
  {
    if |blocks| == 0 {
      GroupsForEmpty(levels);
    } else {
      GroupsForCount(blocks[1..], levels);
      GroupsForCons(blocks[0], blocks[1..], levels);
      assert [blocks[0]] + blocks[1..] == blocks;
    }
  }

  /** The keys of the grouping are the levels, in their order. */
  lemma GroupByLevelKeys(blocks: seq<Bloque>)
    ensures Keys(GroupByLevel(blocks)) == Levels(blocks)
  {
    var keys := Keys(GroupByLevel(blocks));
    assert |keys| == |Levels(blocks)|;
    assert forall i :: 0 <= i < |keys| ==> keys[i] == Levels(blocks)[i];
  }

  /** Every level that occurs has at least one block. */
  lemma GroupByLevelNonEmpty(blocks: seq<Bloque>)
    ensures forall i :: 0 <= i < |GroupByLevel(blocks)| ==> |GroupByLevel(blocks)[i].1| > 0
  {
    var levels := Levels(blocks);
    var groups := GroupByLevel(blocks);
    forall i | 0 <= i < |groups| ensures |groups[i].1| > 0 {
      assert levels[i] in levels;
      var b :| b in blocks && b.nivel == levels[i];
      assert b in groups[i].1;
    }
  }

  /** Every block's level is a key. */
  lemma GroupByLevelCoversLevels(blocks: seq<Bloque>)
    ensures forall b :: b in blocks ==> b.nivel in Keys(GroupByLevel(blocks))
  {
    GroupByLevelKeys(blocks);
    forall b | b in blocks ensures b.nivel in Levels(blocks) {
    }
  }

  /** The map holds every block exactly once. */
  lemma GroupByLevelCount(blocks: seq<Bloque>)
    ensures TotalSize(GroupByLevel(blocks)) == |blocks|
  {
    var levels := Levels(blocks);
    LevelsSorted(blocks);
    SortedKeysDistinct(levels);
    GroupsForCount(blocks, levels);
  }

  /** The grouping is a sorted map from each level that occurs to the
      non-empty list of blocks at that level; it holds every block exactly
      once, so no block is lost or duplicated. */
  lemma GroupByLevelIsGrouping(blocks: seq<Bloque>)
    ensures SortedKeys(Keys(GroupByLevel(blocks)))
    ensures forall i :: 0 <= i < |GroupByLevel(blocks)| ==> |GroupByLevel(blocks)[i].1| > 0
    ensures forall i, b :: 0 <= i < |GroupByLevel(blocks)| ==>
      (b in GroupByLevel(blocks)[i].1 <==> b in blocks && b.nivel == GroupByLevel(blocks)[i].0)
    ensures forall b :: b in blocks ==> b.nivel in Keys(GroupByLevel(blocks))
    ensures TotalSize(GroupByLevel(blocks)) == |blocks|
  {
    LevelsSorted(blocks);
    GroupByLevelKeys(blocks);
    GroupByLevelNonEmpty(blocks);
    GroupByLevelCoversLevels(blocks);
    GroupByLevelCount(blocks);
  }

  // ---------------------------------------------------------------------
  // The view model
  // ---------------------------------------------------------------------

  /** `AdminBlocksUiState`. */
  datatype AdminBlocksUiState = AdminBlocksUiState(
    blocksByLevel: seq<LevelEntry>, isLoading: bool, error: Option<string>)

  /** The view model's two observable values. */
  datatype AdminBlocksState = AdminBlocksState(ui: AdminBlocksUiState, selectedBlock: Option<Bloque>)

  const Initial := AdminBlocksState(AdminBlocksUiState([], true, None), None)

  /** The end of `fetchBlocks`: a success replaces the whole state with
      the grouping, an error replaces it with only the message, and
      `Loading` keeps what is shown with the indicator on. */
  function FinishFetch(ui: AdminBlocksUiState, result: Result<seq<Bloque>>): (t: AdminBlocksUiState)
    ensures result.Success? ==> t == AdminBlocksUiState(GroupByLevel(result.data), false, None)
    ensures result.Error? ==> t == AdminBlocksUiState([], false, Some(result.message))
    ensures result.Loading? ==> t == ui.(isLoading := true)
  {
    match result
    case Success(blocks) => AdminBlocksUiState(GroupByLevel(blocks), false, None)
    case Error(message) => AdminBlocksUiState([], false, Some(message))
    case Loading => ui.(isLoading := true)
  }

  /** `fetchBlocks` as one step. The repository never answers `Loading`,
      so the indicator always goes away, and the groups and the error are
      never shown together. */
  function FetchBlocks(s: AdminBlocksState, session: Session, api: HttpCall<BloquesResponse>): (t: AdminBlocksState)
    ensures !t.ui.isLoading
    ensures t.ui.error.None? <==> session.Some? && HasBody(api) && api.body.value.success
    ensures t.ui.error.Some? ==> t.ui.blocksByLevel == []
    ensures t.ui.error.None? ==> t.ui.blocksByLevel == GroupByLevel(api.body.value.bloques)
    ensures t.selectedBlock == s.selectedBlock
  {
    var started := s.ui.(isLoading := true);
    s.(ui := FinishFetch(started, AuthRepository.GetBloques(session, api).result))
  }

  /** `onBlockSelected`: opens the dialog for a block. */
  function SelectBlock(s: AdminBlocksState, block: Bloque): (t: AdminBlocksState)
    ensures t.selectedBlock == Some(block) && t.ui == s.ui
  {
    s.(selectedBlock := Some(block))
  }

  /** `onDialogDismiss`. */
  function DismissDialog(s: AdminBlocksState): (t: AdminBlocksState)
    ensures t.selectedBlock.None? && t.ui == s.ui
  {
    s.(selectedBlock := None)
  }

  /** After a successful fetch, every fetched block is shown under its own
      level and nowhere else, the levels ascend, and opening and closing a
      block's dialog leaves the groups as they were. */
  lemma FetchedBlocksShownOnce(s: AdminBlocksState, token: string, response: BloquesResponse, code: nat, block: Bloque)
    requires IsSuccessful(code) && response.success && block in response.bloques
    ensures var t := FetchBlocks(s, Some(token), Responded(code, Some(response), None));
      && SortedKeys(Keys(t.ui.blocksByLevel))
      && TotalSize(t.ui.blocksByLevel) == |response.bloques|
      && (forall i :: 0 <= i < |t.ui.blocksByLevel| ==>
            (block in t.ui.blocksByLevel[i].1 <==> t.ui.blocksByLevel[i].0 == block.nivel))
      && DismissDialog(SelectBlock(t, block)) == t.(selectedBlock := None)
  {
    GroupByLevelIsGrouping(response.bloques);
  }
}
