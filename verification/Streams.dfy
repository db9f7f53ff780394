// What the readings of a run's stream (backend/internal/claudecli/classify.go)
// mean, event by event and block by block.
module Streams {
  import opened Jobs
  import opened Classify

  // ----- tool calls -----

  lemma {:induction false} UsesCount(blocks: seq<Block>, uses: set<nat>)
    requires forall k :: k in uses <==> 0 <= k < |blocks| && blocks[k].ToolUse?
    ensures Uses(blocks) == |uses|
  {
    if blocks == [] {
      assert uses == {};
    } else {
      var n := |blocks| - 1;
      assert forall k :: k in uses - {n} <==> 0 <= k < n && blocks[..n][k].ToolUse?;
      UsesCount(blocks[..n], uses - {n});
    }
  }

  // The tool calls of a stream are its tool_use blocks, each counted once.
  lemma {:induction false} ToolUsesCount(stream: seq<StreamEvent>, uses: set<(nat, nat)>)
    requires forall i, k :: (i, k) in uses <==>
               0 <= i < |stream| && 0 <= k < |stream[i].blocks| && stream[i].blocks[k].ToolUse?
    ensures ToolUses(stream) == |uses|
  {
    if stream == [] {
      forall u ensures u !in uses { assert u == (u.0, u.1); }
      assert uses == {};
    } else {
      var n := |stream| - 1;
      var blocks := stream[n].blocks;
      var last := set k | 0 <= k < |blocks| && blocks[k].ToolUse?;
      var here := set k | k in last :: (n, k);
      UsesCount(blocks, last);
      PairsCount(n, last, here);
      assert forall i, k :: (i, k) in uses - here <==>
                 0 <= i < n && 0 <= k < |stream[..n][i].blocks| && stream[..n][i].blocks[k].ToolUse?;
      assert here <= uses;
      ToolUsesCount(stream[..n], uses - here);
    }
  }

  lemma {:induction false} PairsCount(n: nat, ks: set<nat>, pairs: set<(nat, nat)>)
    requires pairs == set k | k in ks :: (n, k)
    ensures |pairs| == |ks|
    decreases ks
  {
    if k :| k in ks {
      PairsCount(n, ks - {k}, pairs - {(n, k)});
      assert (n, k) in pairs;
    } else {
      assert pairs == {};
    }
  }

  // ----- usage limits -----

  lemma {:induction false} AnyUsageMeans(blocks: seq<Block>)
    ensures AnyUsage(blocks) <==>
              exists k :: 0 <= k < |blocks| && blocks[k].ToolResult? && blocks[k].isError && blocks[k].saysUsage
  {
    if blocks != [] {
      var n := |blocks| - 1;
      AnyUsageMeans(blocks[..n]);
      assert forall k | 0 <= k < n :: blocks[..n][k] == blocks[k];
    }
  }

  // A run is rate limited exactly if a retry line says so, or the text of a
  // failed tool result.
  lemma {:induction false} RateLimitedMeans(stream: seq<StreamEvent>)
    ensures RateLimited(stream) <==>
              exists i :: 0 <= i < |stream| &&
                (|| stream[i].retrySaysUsage
                 || exists k :: 0 <= k < |stream[i].blocks| &&
                      var b := stream[i].blocks[k]; b.ToolResult? && b.isError && b.saysUsage)
  {
    if stream != [] {
      var n := |stream| - 1;
      RateLimitedMeans(stream[..n]);
      AnyUsageMeans(stream[n].blocks);
      assert forall i | 0 <= i < n :: stream[..n][i] == stream[i];
    }
  }

  // ----- the last result line and session -----

  // The last result line counts, at i; none if i is negative.
  lemma {:induction false} LastResultCounts(stream: seq<StreamEvent>, i: int)
    requires -1 <= i < |stream| && (i >= 0 ==> stream[i].final.Some?)
    requires forall j | i < j < |stream| :: stream[j].final.None?
    ensures LastFinal(stream) == if i < 0 then None else stream[i].final
    decreases |stream|
  {
    if i < |stream| - 1 { LastResultCounts(stream[..|stream| - 1], i); }
  }

  lemma {:induction false} LastSessionCounts(stream: seq<StreamEvent>, i: int)
    requires -1 <= i < |stream| && (i >= 0 ==> stream[i].sessionId != "")
    requires forall j | i < j < |stream| :: stream[j].sessionId == ""
    ensures LastSession(stream) == if i < 0 then "" else stream[i].sessionId
    decreases |stream|
  {
    if i < |stream| - 1 { LastSessionCounts(stream[..|stream| - 1], i); }
  }

  // ----- tool names and denials -----

  // A tool use id goes by the name it was last used with, in block k; by the
  // name it had before if k is negative.
  lemma {:induction false} LastNameCounts(names: map<string, string>, blocks: seq<Block>, id: string, k: int)
    requires -1 <= k < |blocks| && id != "" && (k >= 0 ==> blocks[k].ToolUse? && blocks[k].id == id)
    requires forall j | k < j < |blocks| :: !(blocks[j].ToolUse? && blocks[j].id == id)
    ensures k >= 0 ==> id in NamesAfter(names, blocks) && NamesAfter(names, blocks)[id] == blocks[k].name
    ensures k < 0 ==> (id in NamesAfter(names, blocks) <==> id in names)
                      && (id in names ==> NamesAfter(names, blocks)[id] == names[id])
    decreases |blocks|
  {
    if k < |blocks| - 1 { LastNameCounts(names, blocks[..|blocks| - 1], id, k); }
  }

  lemma {:induction false} NamesAppend(names: map<string, string>, a: seq<Block>, b: seq<Block>)
    ensures NamesAfter(names, a + b) == NamesAfter(NamesAfter(names, a), b)
  {
    if b == [] {
      assert a + b == a;
    } else {
      assert (a + b)[..|a + b| - 1] == a + b[..|b| - 1];
      NamesAppend(names, a, b[..|b| - 1]);
    }
  }

  // All blocks, in order.
  function Blocks(stream: seq<StreamEvent>): seq<Block>
  {
    if stream == [] then [] else Blocks(stream[..|stream| - 1]) + stream[|stream| - 1].blocks
  }

  // So at any point of the stream: the last tool_use block with that id, in
  // whichever event, decides.
  lemma {:induction false} StreamNames(stream: seq<StreamEvent>)
    ensures NamesOf(stream) == NamesAfter(map[], Blocks(stream))
  {
    if stream != [] {
      var n := |stream| - 1;
      StreamNames(stream[..n]);
      NamesAppend(map[], Blocks(stream[..n]), stream[n].blocks);
    }
  }

  lemma {:induction false} DeniedInMeans(names: map<string, string>, blocks: seq<Block>, d: string)
    ensures d in DeniedIn(names, blocks) <==>
              exists k :: 0 <= k < |blocks| && blocks[k].ToolResult? && blocks[k].isError && blocks[k].saysDenied
                          && d == DeniedName(NamesAfter(names, blocks[..k]), blocks[k].toolUse)
  {
    if blocks != [] {
      var n := |blocks| - 1;
      DeniedInMeans(names, blocks[..n], d);
      assert forall k | 0 <= k < n :: blocks[..n][k] == blocks[k] && blocks[..n][..k] == blocks[..k];
    }
  }

  ghost predicate DeniedAt(stream: seq<StreamEvent>, i: nat, d: string)
    requires i < |stream|
  {
    (stream[i].final.Some? && d in stream[i].denials) || d in DeniedIn(NamesOf(stream[..i]), stream[i].blocks)
  }

  lemma DeniedEarlier(stream: seq<StreamEvent>, n: nat, i: nat, d: string)
    requires i < n <= |stream|
    ensures DeniedAt(stream[..n], i, d) <==> DeniedAt(stream, i, d)
  {
    assert stream[..n][..i] == stream[..i];
  }

  lemma {:induction false} DeniedSomewhere(stream: seq<StreamEvent>, d: string)
    ensures d in Denied(stream) <==> exists i: nat :: i < |stream| && DeniedAt(stream, i, d)
  {
    if stream != [] {
      var n := |stream| - 1;
      DeniedSomewhere(stream[..n], d);
      forall i: nat | i < n ensures DeniedAt(stream[..n], i, d) <==> DeniedAt(stream, i, d) {
        DeniedEarlier(stream, n, i, d);
      }
      assert DeniedAt(stream, n, d) <==> d in ListedIn(stream[n]) + DeniedIn(NamesOf(stream[..n]), stream[n].blocks);
    }
  }

  // A tool is denied exactly if a result line lists it, or a failed tool result
  // says so of a use that goes by that name at that point; "unknown tool" stands
  // for a use without a name.
  lemma DeniedMeans(stream: seq<StreamEvent>, d: string)
    ensures d in Denied(stream) <==>
              exists i :: 0 <= i < |stream| &&
                (|| (stream[i].final.Some? && d in stream[i].denials)
                 || exists k :: 0 <= k < |stream[i].blocks| &&
                      var b := stream[i].blocks[k];
                      var names := NamesAfter(map[], Blocks(stream[..i]) + stream[i].blocks[..k]);
                      && b.ToolResult? && b.isError && b.saysDenied
                      && d == if b.toolUse in names && names[b.toolUse] != "" then names[b.toolUse] else "unknown tool")
  {
    DeniedSomewhere(stream, d);
    forall i | 0 <= i < |stream|
      ensures DeniedAt(stream, i, d) <==>
                || (stream[i].final.Some? && d in stream[i].denials)
                || exists k :: 0 <= k < |stream[i].blocks| &&
                     var b := stream[i].blocks[k];
                     var names := NamesAfter(map[], Blocks(stream[..i]) + stream[i].blocks[..k]);
                     && b.ToolResult? && b.isError && b.saysDenied
                     && d == if b.toolUse in names && names[b.toolUse] != "" then names[b.toolUse] else "unknown tool"
    {
      DeniedInMeans(NamesOf(stream[..i]), stream[i].blocks, d);
      StreamNames(stream[..i]);
      forall k | 0 <= k < |stream[i].blocks| {
        NamesAppend(map[], Blocks(stream[..i]), stream[i].blocks[..k]);
      }
    }
  }
}
