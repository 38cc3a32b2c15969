/** The stack of open list indentation levels that
    `maintain_list_indent_stack` keeps, as values. */
module ListIndentStack {
  import opened OrgLine

  /** Distinct nesting depths, deepest on top. */
  ghost predicate StrictlyIncreasing(s: seq<nat>) {
    forall i, j :: 0 <= i < j < |s| ==> s[i] < s[j]
  }

  function Last(s: seq<nat>): nat
    requires s != []
  {
    s[|s| - 1]
  }

  /** What the popping loop leaves: levels deeper than `indent` are closed. */
  function PopDeeper(s: seq<nat>, indent: nat): seq<nat>
    decreases |s|
  {
    if s != [] && Last(s) > indent then PopDeeper(s[..|s| - 1], indent) else s
  }

  /** The stack after `line` has been seen: list items close deeper levels
      and open their own unless it is already on top; any other line
      clears the stack. */
  function MaintainedStack(s: seq<nat>, line: Line): seq<nat> {
    if PlainList(line) then
      var p := PopDeeper(s, line.indent);
      if p == [] || Last(p) < line.indent then p + [line.indent] else p
    else
      []
  }

  /** Popping keeps a bottom part of the stack, whose top is no deeper than
      `indent`, and removes only levels deeper than `indent`. */
  lemma {:induction false} PopDeeperSpec(s: seq<nat>, indent: nat)
    ensures |PopDeeper(s, indent)| <= |s|
    ensures PopDeeper(s, indent) == s[..|PopDeeper(s, indent)|]
    ensures PopDeeper(s, indent) != [] ==> Last(PopDeeper(s, indent)) <= indent
    ensures forall k :: |PopDeeper(s, indent)| <= k < |s| ==> s[k] > indent
  {
    if s != [] && Last(s) > indent {
      PopDeeperSpec(s[..|s| - 1], indent);
      assert s[..|s| - 1][..|PopDeeper(s, indent)|] == s[..|PopDeeper(s, indent)|];
    }
  }

  /** On a strictly increasing stack the new stack is again strictly
      increasing; after a list item its top is the item's indent and it
      holds exactly the old levels shallower than the item plus the item's
      own level; after any other line it is empty. */
  lemma MaintainedStackSpec(s: seq<nat>, line: Line)
    requires StrictlyIncreasing(s)
    ensures StrictlyIncreasing(MaintainedStack(s, line))
    ensures PlainList(line) ==>
      MaintainedStack(s, line) != [] && Last(MaintainedStack(s, line)) == line.indent
    ensures PlainList(line) ==> forall x ::
      x in MaintainedStack(s, line) <==> (x in s && x < line.indent) || x == line.indent
    ensures !PlainList(line) ==> MaintainedStack(s, line) == []
  {
    if PlainList(line) {
      var i := line.indent;
      var p := PopDeeper(s, i);
      PopDeeperSpec(s, i);
      assert StrictlyIncreasing(p);
      forall x
        ensures x in p <==> x in s && x <= i
      {
        if x in p {
          var k :| 0 <= k < |p| && p[k] == x;
          assert p[k] <= p[|p| - 1];
        }
        if x in s && x <= i {
          var k :| 0 <= k < |s| && s[k] == x;
          assert k < |p|;
          assert p[k] == x;
        }
      }
      if p == [] || Last(p) < i {
        var r := p + [i];
        assert r == MaintainedStack(s, line);
        forall a, b | 0 <= a < b < |r|
          ensures r[a] < r[b]
        {
          if b == |r| - 1 && a < |p| {
            assert r[a] <= Last(p);
          }
        }
      }
    }
  }

  /** An item at the depth of an open level closes only the levels above it;
      in particular a sibling item at the depth of the top leaves the stack
      as it is. */
  lemma ReturnToOpenLevel(s: seq<nat>, line: Line, k: nat)
    requires StrictlyIncreasing(s)
    requires PlainList(line)
    requires k < |s| && s[k] == line.indent
    ensures MaintainedStack(s, line) == s[..k + 1]
  {
    var p := PopDeeper(s, line.indent);
    PopDeeperSpec(s, line.indent);
    // s[k] is not deeper than the item, so popping stops at it; every level
    // above s[k] is deeper, so popping removes them all.
    assert k < |p|;
    assert forall j :: k < j < |s| ==> s[j] > line.indent;
    assert p == s[..k + 1];
  }
}
