/** How a colocated worker divides a step's token budget over the requests in
    prefill, in order. */
module ClusterBudget {
  import opened Lists
  import opened ClusterPrefill
  import opened ClusterDecode

  /** A request in prefill and how many prompt tokens are done. */
  datatype Part = Part(req: Req, done: nat)

  datatype Chunk = Chunk(id: int, tokens: pos)

  /** The prefill side of a step: its chunks, and how many requests were decoding
      and prefilling when it was planned. */
  datatype Work = Work(chunks: seq<Chunk>, decoding: nat, prefilling: nat)

  // ---- dividing the budget

  function Positive(n: int): nat {
    if n < 0 then 0 else n
  }

  function Share(p: Part, budget: int): nat {
    var need := Positive(p.req.prompt - p.done);
    if need <= Positive(budget) then need else Positive(budget)
  }

  function Chunks(parts: seq<Part>, budget: int): seq<Chunk> {
    if parts == [] then []
    else
      var take := Share(parts[0], budget);
      (if take > 0 then [Chunk(parts[0].req.id, take)] else []) + Chunks(parts[1..], budget - take)
  }

  predicate Completes(p: Part, budget: int) {
    p.done + Share(p, budget) >= p.req.prompt
  }

  /** The requests whose prefill ends in this step. */
  function Born(parts: seq<Part>, budget: int): seq<Req> {
    if parts == [] then []
    else (if Completes(parts[0], budget) then [parts[0].req] else [])
         + Born(parts[1..], budget - Share(parts[0], budget))
  }

  function Still(parts: seq<Part>, budget: int): seq<Part> {
    if parts == [] then []
    else (if Completes(parts[0], budget) then [] else [Part(parts[0].req, parts[0].done + Share(parts[0], budget))])
         + Still(parts[1..], budget - Share(parts[0], budget))
  }

  function TokensFor(chunks: seq<Chunk>, id: int): nat {
    if chunks == [] then 0
    else TokensFor(chunks[1..], id) + if chunks[0].id == id then chunks[0].tokens else 0
  }

  function TotalTokens(chunks: seq<Chunk>): nat {
    if chunks == [] then 0 else chunks[0].tokens + TotalTokens(chunks[1..])
  }

  /** Prompt tokens a request was given over a whole history. */
  function Prefilled(work: seq<Work>, id: int): nat {
    if work == [] then 0
    else Prefilled(work[..|work| - 1], id) + TokensFor(work[|work| - 1].chunks, id)
  }

  function Reqs(parts: seq<Part>): (r: seq<Req>)
    ensures |r| == |parts| && forall i :: 0 <= i < |parts| ==> r[i] == parts[i].req
  {
    if parts == [] then [] else [parts[0].req] + Reqs(parts[1..])
  }

  lemma {:induction false} ChunksWithin(parts: seq<Part>, budget: int)
    ensures TotalTokens(Chunks(parts, budget)) <= Positive(budget)
  {
    if parts != [] {
      var take := Share(parts[0], budget);
      ChunksWithin(parts[1..], budget - take);
      if take > 0 {
        assert Chunks(parts, budget)[1..] == Chunks(parts[1..], budget - take);
      } else {
        assert Chunks(parts, budget) == Chunks(parts[1..], budget - take);
      }
    }
  }

  /** Prompt tokens the parts still lack. */
  function Lacking(parts: seq<Part>): nat {
    if parts == [] then 0 else Positive(parts[0].req.prompt - parts[0].done) + Lacking(parts[1..])
  }

  /** The whole budget is used, unless nothing is left to use it on. */
  lemma {:induction false} ChunksTotal(parts: seq<Part>, budget: int)
    ensures TotalTokens(Chunks(parts, budget)) ==
            if budget <= 0 then 0 else if budget <= Lacking(parts) then budget else Lacking(parts)
  {
    if parts != [] {
      var take := Share(parts[0], budget);
      ChunksTotal(parts[1..], budget - take);
      if take > 0 {
        assert Chunks(parts, budget)[1..] == Chunks(parts[1..], budget - take);
      } else {
        assert Chunks(parts, budget) == Chunks(parts[1..], budget - take);
      }
    }
  }

  lemma NoTokensLeft(parts: seq<Part>, budget: int)
    requires budget <= 0
    ensures Chunks(parts, budget) == []
  {
    ChunksWithin(parts, budget);
  }

  /** No part gets tokens before each part ahead of it is complete. */
  lemma {:induction false} ChunksInOrder(parts: seq<Part>, budget: int, i: nat, j: nat)
    requires PartsOk(parts) && i < j < |parts| && TokensFor(Chunks(parts, budget), parts[j].req.id) > 0
    ensures parts[i].done + TokensFor(Chunks(parts, budget), parts[i].req.id) == parts[i].req.prompt
  {
    hide Chunks, Share, PartsOk;
    var rest, left := parts[1..], budget - Share(parts[0], budget);
    PartsTail(parts);
    ChunksHead(parts, budget);
    assert rest[j - 1] == parts[j] && rest[j - 1] in rest;
    if i > 0 {
      assert rest[i - 1] == parts[i] && rest[i - 1] in rest;
      ChunksInOrder(rest, left, i - 1, j - 1);
    } else {
      HeadFirst(parts, budget, parts[j].req.id);
    }
  }

  lemma HeadFirst(parts: seq<Part>, budget: int, id: int)
    requires PartsOk(parts) && parts != [] && id != parts[0].req.id && TokensFor(Chunks(parts, budget), id) > 0
    ensures parts[0].done + TokensFor(Chunks(parts, budget), parts[0].req.id) == parts[0].req.prompt
  {
    HeadNotBehind(parts, budget);
    ChunksHead(parts, budget);
    hide Chunks;
    var left := budget - Share(parts[0], budget);
    if left <= 0 {
      NoTokensLeft(parts[1..], left);
    }
    assert parts[0] in parts;
  }

  /** While some of the budget is left over, everybody's prefill ends. */
  lemma {:induction false} AllBorn(parts: seq<Part>, budget: int)
    requires TotalTokens(Chunks(parts, budget)) < Positive(budget)
    ensures Born(parts, budget) == Reqs(parts)
  {
    if parts != [] {
      var take := Share(parts[0], budget);
      if take > 0 {
        assert Chunks(parts, budget)[1..] == Chunks(parts[1..], budget - take);
      } else {
        assert Chunks(parts, budget) == Chunks(parts[1..], budget - take);
      }
      AllBorn(parts[1..], budget - take);
    }
  }

  /** Where a part goes: its chunk is what it advances by, and it is born exactly
      when that completes the prompt. */
  ghost predicate Placed(p: Part, parts: seq<Part>, budget: int) {
    var t := TokensFor(Chunks(parts, budget), p.req.id);
    && p.done + t <= p.req.prompt
    && (p.req in Born(parts, budget) <==> p.done + t == p.req.prompt)
    && (p.req in Reqs(Still(parts, budget)) <==> p.done + t < p.req.prompt)
    && (forall q :: q in Still(parts, budget) && q.req == p.req ==> q.done == p.done + t)
  }

  ghost predicate PartsOk(parts: seq<Part>) {
    && DistinctIds(Reqs(parts))
    && forall p :: p in parts ==> p.done <= p.req.prompt
  }

  lemma PartsTail(parts: seq<Part>)
    requires PartsOk(parts) && parts != []
    ensures PartsOk(parts[1..])
    ensures forall p :: p in parts[1..] ==> p.req.id != parts[0].req.id
  {
    var rest := Reqs(parts[1..]);
    assert forall i :: 0 <= i < |rest| ==> rest[i] == Reqs(parts)[i + 1];
    assert parts[0] in parts && Reqs(parts)[0] == parts[0].req;
    forall p | p in parts[1..] ensures p.req.id != parts[0].req.id {
      var i :| 0 <= i < |parts[1..]| && parts[1..][i] == p;
      assert Reqs(parts)[i + 1] == p.req;
    }
  }

  lemma ChunksHead(parts: seq<Part>, budget: int)
    requires parts != []
    ensures
      var take := Share(parts[0], budget);
      forall id :: TokensFor(Chunks(parts, budget), id) ==
                   (if parts[0].req.id == id then take else 0) + TokensFor(Chunks(parts[1..], budget - take), id)
  {
    var take := Share(parts[0], budget);
    if take > 0 {
      assert Chunks(parts, budget)[1..] == Chunks(parts[1..], budget - take);
    } else {
      assert Chunks(parts, budget) == Chunks(parts[1..], budget - take);
    }
  }

  lemma StillHead(parts: seq<Part>, budget: int)
    requires parts != []
    ensures
      var take := Share(parts[0], budget);
      Reqs(Still(parts, budget)) ==
      (if Completes(parts[0], budget) then [] else [parts[0].req]) + Reqs(Still(parts[1..], budget - take))
  {
    var take := Share(parts[0], budget);
    if Completes(parts[0], budget) {
      assert Still(parts, budget) == Still(parts[1..], budget - take);
    } else {
      assert Still(parts, budget)[1..] == Still(parts[1..], budget - take);
    }
  }

  lemma {:induction false} BornMembers(parts: seq<Part>, budget: int)
    ensures forall r :: r in Born(parts, budget) ==> r in Reqs(parts)
    ensures |Born(parts, budget)| + |Still(parts, budget)| == |parts|
  {
    if parts != [] {
      BornMembers(parts[1..], budget - Share(parts[0], budget));
    }
  }

  lemma {:induction false} StillMembers(parts: seq<Part>, budget: int)
    ensures forall r :: r in Reqs(Still(parts, budget)) ==> r in Reqs(parts)
  {
    if parts != [] {
      StillHead(parts, budget);
      hide Still, Share;
      StillMembers(parts[1..], budget - Share(parts[0], budget));
    }
  }

  lemma {:induction false} ChunkMember(parts: seq<Part>, budget: int, id: int)
    requires TokensFor(Chunks(parts, budget), id) > 0
    ensures exists r :: r in Reqs(parts) && r.id == id
  {
    if parts != [] {
      ChunksHead(parts, budget);
      hide Chunks;
      var rest := Reqs(parts[1..]);
      assert Reqs(parts) == [parts[0].req] + rest;
      if parts[0].req.id == id {
        assert parts[0].req in Reqs(parts);
      } else {
        ChunkMember(parts[1..], budget - Share(parts[0], budget), id);
        var r :| r in rest && r.id == id;
        assert r in Reqs(parts);
      }
    }
  }

  lemma ShareMembers(parts: seq<Part>, budget: int)
    ensures forall r :: r in Born(parts, budget) ==> r in Reqs(parts)
    ensures forall r :: r in Reqs(Still(parts, budget)) ==> r in Reqs(parts)
    ensures forall id :: TokensFor(Chunks(parts, budget), id) > 0 ==> exists r :: r in Reqs(parts) && r.id == id
    ensures |Born(parts, budget)| + |Still(parts, budget)| == |parts|
  {
    BornMembers(parts, budget);
    StillMembers(parts, budget);
    forall id | TokensFor(Chunks(parts, budget), id) > 0 ensures exists r :: r in Reqs(parts) && r.id == id {
      ChunkMember(parts, budget, id);
    }
  }

  lemma {:induction false} AllPlaced(parts: seq<Part>, budget: int)
    requires PartsOk(parts)
    ensures forall p :: p in parts ==> Placed(p, parts, budget)
  {
    if parts != [] {
      var head, rest := parts[0], parts[1..];
      var left := budget - Share(head, budget);
      PartsTail(parts);
      AllPlaced(rest, left);
      ChunksHead(parts, budget);
      StillHead(parts, budget);
      ShareMembers(rest, left);
      assert head in parts;
      forall p | p in parts ensures Placed(p, parts, budget) {
        if p in rest {
          LaterPlaced(p, parts, budget);
        } else {
          assert p == head;
          HeadPlaced(parts, budget);
        }
      }
    }
  }

  lemma HeadNotBehind(parts: seq<Part>, budget: int)
    requires PartsOk(parts) && parts != []
    ensures
      var left := budget - Share(parts[0], budget);
      && TokensFor(Chunks(parts[1..], left), parts[0].req.id) == 0
      && parts[0].req !in Born(parts[1..], left)
      && parts[0].req !in Reqs(Still(parts[1..], left))
      && forall q :: q in Still(parts[1..], left) ==> q.req != parts[0].req
  {
    hide Born, Still, Chunks, Share;
    var left := budget - Share(parts[0], budget);
    var rest := parts[1..];
    HeadApart(parts, left);
    RestApart(parts);
    if TokensFor(Chunks(rest, left), parts[0].req.id) > 0 {
      ChunkMember(rest, left, parts[0].req.id);
    }
    forall q | q in Still(rest, left) ensures q.req in Reqs(Still(rest, left)) {
      var i :| 0 <= i < |Still(rest, left)| && Still(rest, left)[i] == q;
      assert Reqs(Still(rest, left))[i] == q.req;
    }
  }

  lemma HeadPlaced(parts: seq<Part>, budget: int)
    requires PartsOk(parts) && parts != []
    ensures Placed(parts[0], parts, budget)
  {
    HeadNotBehind(parts, budget);
    ChunksHead(parts, budget);
    StillHead(parts, budget);
    assert parts[0] in parts;
  }

  lemma BornHead(parts: seq<Part>, budget: int)
    requires parts != []
    ensures Born(parts, budget) ==
            (if Completes(parts[0], budget) then [parts[0].req] else [])
            + Born(parts[1..], budget - Share(parts[0], budget))
  {
  }

  /** In order of arrival. */
  ghost predicate Queued(parts: seq<Part>) {
    forall a, b :: 0 <= a < b < |parts| ==> parts[a].req.at <= parts[b].req.at
  }

  lemma QueuedCons(p: Part, parts: seq<Part>)
    requires Queued(parts) && forall q :: q in parts ==> p.req.at <= q.req.at
    ensures Queued([p] + parts)
  {
    assert forall k :: 0 <= k < |parts| ==> parts[k] in parts;
  }

  lemma QueuedTail(parts: seq<Part>)
    requires Queued(parts) && parts != []
    ensures Queued(parts[1..]) && forall q :: q in parts[1..] ==> parts[0].req.at <= q.req.at
  {
  }

  lemma {:induction false} StillFrom(parts: seq<Part>, budget: int)
    ensures forall q :: q in Still(parts, budget) ==> exists p :: p in parts && p.req == q.req
  {
    if parts != [] {
      var left := budget - Share(parts[0], budget);
      StillFrom(parts[1..], left);
      forall q | q in Still(parts, budget) ensures exists p :: p in parts && p.req == q.req {
        if q.req == parts[0].req {
          assert parts[0] in parts;
        } else {
          StillMember(parts, budget, q);
          var p :| p in parts[1..] && p.req == q.req;
          assert p in parts;
        }
      }
    }
  }

  lemma {:induction false} StillQueued(parts: seq<Part>, budget: int)
    requires Queued(parts)
    ensures Queued(Still(parts, budget))
  {
    hide Queued, Share, Still;
    if parts == [] {
      NothingStill(budget);
    } else {
      var left := budget - Share(parts[0], budget);
      QueuedTail(parts);
      StillQueued(parts[1..], left);
      StillFrom(parts[1..], left);
      StillSplits(parts, budget);
      var rest := Still(parts[1..], left);
      forall q | q in rest ensures parts[0].req.at <= q.req.at {
        var p :| p in parts[1..] && p.req == q.req;
      }
      QueuedCons(Part(parts[0].req, parts[0].done + Share(parts[0], budget)), rest);
    }
  }

  lemma NothingStill(budget: int)
    ensures Queued([]) && Still([], budget) == []
  {
  }

  lemma StillSplits(parts: seq<Part>, budget: int)
    requires parts != []
    ensures
      var p, rest := parts[0], Still(parts[1..], budget - Share(parts[0], budget));
      Still(parts, budget) == if Completes(p, budget) then rest else [Part(p.req, p.done + Share(p, budget))] + rest
  {
    hide Share, Completes;
  }

  lemma StillMember(parts: seq<Part>, budget: int, q: Part)
    requires parts != [] && q in Still(parts, budget)
    ensures q.req == parts[0].req || q in Still(parts[1..], budget - Share(parts[0], budget))
  {
  }

  lemma LaterPlaced(p: Part, parts: seq<Part>, budget: int)
    requires PartsOk(parts) && parts != [] && p in parts[1..]
    requires Placed(p, parts[1..], budget - Share(parts[0], budget))
    ensures Placed(p, parts, budget)
  {
    PartsTail(parts);
    ChunksHead(parts, budget);
    StillHead(parts, budget);
    BornHead(parts, budget);
    hide Chunks, Born, Still, Share, PartsOk;
    forall q | q in Still(parts, budget) && q.req == p.req
      ensures q in Still(parts[1..], budget - Share(parts[0], budget))
    {
      StillMember(parts, budget, q);
    }
  }

  lemma {:induction false} ShareDistinct(parts: seq<Part>, budget: int)
    requires PartsOk(parts)
    ensures DistinctIds(Born(parts, budget)) && DistinctIds(Reqs(Still(parts, budget)))
    ensures forall q :: q in Still(parts, budget) ==> q.done < q.req.prompt
  {
    if parts != [] {
      var left := budget - Share(parts[0], budget);
      PartsTail(parts);
      ShareDistinct(parts[1..], left);
      StillHead(parts, budget);
      BornHead(parts, budget);
      StillDone(parts, budget);
      hide Born, Still, Share, PartsOk;
      HeadApart(parts, left);
      ConsIds(parts[0].req, Born(parts[1..], left));
      ConsIds(parts[0].req, Reqs(Still(parts[1..], left)));
    }
  }

  lemma StillDone(parts: seq<Part>, budget: int)
    requires parts != []
    requires forall q :: q in Still(parts[1..], budget - Share(parts[0], budget)) ==> q.done < q.req.prompt
    ensures forall q :: q in Still(parts, budget) ==> q.done < q.req.prompt
  {
  }

  /** No later request shares the first one's id. */
  lemma HeadApart(parts: seq<Part>, left: int)
    requires PartsOk(parts) && parts != []
    ensures forall r :: r in Born(parts[1..], left) || r in Reqs(Still(parts[1..], left)) ==> r.id != parts[0].req.id
  {
    RestApart(parts);
    BornMembers(parts[1..], left);
    StillMembers(parts[1..], left);
  }

  lemma RestApart(parts: seq<Part>)
    requires PartsOk(parts) && parts != []
    ensures forall r :: r in Reqs(parts[1..]) ==> r.id != parts[0].req.id
  {
    PartsTail(parts);
    var rest := parts[1..];
    forall r | r in Reqs(rest) ensures r.id != parts[0].req.id {
      var i :| 0 <= i < |rest| && Reqs(rest)[i] == r;
      assert rest[i] in rest;
    }
  }

  lemma ConsIds(r: Req, reqs: seq<Req>)
    requires DistinctIds(reqs) && forall x :: x in reqs ==> x.id != r.id
    ensures DistinctIds([r] + reqs) && [] + reqs == reqs
  {
    assert forall k :: 0 <= k < |reqs| ==> reqs[k] in reqs;
  }
}
