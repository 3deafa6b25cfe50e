/**
 * The idea store of src/lib/ideas.ts.
 *
 * The source keeps the list of ideas in one JSON file. `getIdeas` only reads
 * it (creating it as `[]` when it is missing), `addIdea` reads it and writes
 * the longer array back, `voteIdea` reads it and writes it back only when an
 * idea matched, and `flushIdeas` writes `[]` without reading. Here the file
 * is the field `ideas` of the class `IdeaStore`; a method that writes the
 * file assigns that field, and a method that does not write leaves it alone.
 */
module Ideas {
  import opened Wrappers

  /** One stored idea. `id` is the creation timestamp; `votes` starts at 0 and only grows. */
  datatype Idea = Idea(id: int, text: string, votes: nat)

  /** Some idea in `s` carries `id` (the JavaScript test `i.id === id`). */
  predicate HasId(s: seq<Idea>, id: int) {
    exists i :: 0 <= i < |s| && s[i].id == id
  }

  /**
   * `Array.prototype.find` on `i.id === id`, returning the position of the
   * first match instead of the object itself.
   */
  function FindFirst(s: seq<Idea>, id: int): (r: Option<nat>)
    ensures r.Some? <==> HasId(s, id)
    ensures r.Some? ==> r.value < |s| && s[r.value].id == id
    ensures r.Some? ==> forall j :: 0 <= j < r.value ==> s[j].id != id
  {
    if s == [] then None
    else if s[0].id == id then Some(0)
    else
      match FindFirst(s[1..], id)
      case None =>
        assert forall i :: 1 <= i < |s| ==> s[i] == s[1..][i - 1];
        None
      case Some(k) =>
        assert s[k + 1] == s[1..][k];
        assert forall j :: 1 <= j < k + 1 ==> s[j] == s[1..][j - 1];
        Some(k + 1)
  }

  /**
   * The list `voteIdea` leaves behind: the first idea whose id matches has one
   * more vote, and when nothing matches the list is returned as it was.
   */
  function AfterVote(s: seq<Idea>, id: int): (r: seq<Idea>)
    ensures |r| == |s|
    ensures r == s <==> !HasId(s, id)
  {
    match FindFirst(s, id)
    case None => s
    case Some(k) => s[k := s[k].(votes := s[k].votes + 1)]
  }

  /** The ids of `s`, in store order. */
  function Ids(s: seq<Idea>): (r: seq<int>)
    ensures |r| == |s|
    ensures forall i :: 0 <= i < |s| ==> r[i] == s[i].id
  {
    if s == [] then [] else [s[0].id] + Ids(s[1..])
  }

  /** The number of votes cast over all ideas of `s`. */
  function TotalVotes(s: seq<Idea>): nat {
    if s == [] then 0 else s[0].votes + TotalVotes(s[1..])
  }

  /**
   * When `k` is the first position holding `id`, voting raises that idea's
   * count by exactly one and changes nothing else: not its id or text, not
   * the length or order, not a later idea that happens to share the id.
   */
  lemma VoteIncrementsFirstMatch(s: seq<Idea>, id: int, k: nat)
    requires k < |s| && s[k].id == id
    requires forall j :: 0 <= j < k ==> s[j].id != id
    ensures |AfterVote(s, id)| == |s|
    ensures AfterVote(s, id)[k] == Idea(id, s[k].text, s[k].votes + 1)
    ensures forall j :: 0 <= j < |s| && j != k ==> AfterVote(s, id)[j] == s[j]
  {
  }

  /** Voting for an id that no idea carries leaves the list exactly as it was. */
  lemma VoteAbsentUnchanged(s: seq<Idea>, id: int)
    requires !HasId(s, id)
    ensures AfterVote(s, id) == s
  {
  }

  /**
   * Voting never touches ids or texts and never lowers a count, so the ids
   * (as a sequence, hence also as a multiset) are the same before and after.
   */
  lemma VoteKeepsIds(s: seq<Idea>, id: int)
    ensures |AfterVote(s, id)| == |s|
    ensures forall i :: 0 <= i < |s| ==>
      AfterVote(s, id)[i].id == s[i].id && AfterVote(s, id)[i].text == s[i].text &&
      AfterVote(s, id)[i].votes >= s[i].votes
    ensures Ids(AfterVote(s, id)) == Ids(s)
    ensures multiset(Ids(AfterVote(s, id))) == multiset(Ids(s))
    ensures HasId(AfterVote(s, id), id) <==> HasId(s, id)
  {
  }

  /** Replacing one idea's count by `v` moves the total by the difference. */
  lemma {:induction false} TotalVotesUpdate(s: seq<Idea>, k: nat, v: nat)
    requires k < |s|
    ensures TotalVotes(s[k := s[k].(votes := v)]) + s[k].votes == TotalVotes(s) + v
  {
    var t := s[k := s[k].(votes := v)];
    if k == 0 {
      assert t[1..] == s[1..];
    } else {
      assert t[1..] == s[1..][k - 1 := s[1..][k - 1].(votes := v)];
      TotalVotesUpdate(s[1..], k - 1, v);
    }
  }

  /** A vote adds exactly one to the total when the id is stored, and nothing otherwise. */
  lemma {:induction false} VoteAddsOne(s: seq<Idea>, id: int)
    ensures TotalVotes(AfterVote(s, id)) == TotalVotes(s) + (if HasId(s, id) then 1 else 0)
  {
    match FindFirst(s, id)
    case None =>
    case Some(k) => TotalVotesUpdate(s, k, s[k].votes + 1);
  }

  /** The JSON file `data/ideas.json` and the operations that read and rewrite it. */
  class IdeaStore {
    /** The array the file holds, in insertion order. */
    var ideas: seq<Idea>

    /** A store over a file that already holds `persisted`. */
    constructor (persisted: seq<Idea>)
      ensures ideas == persisted
    {
      ideas := persisted;
    }

    /** A store whose file did not exist: it is created holding `[]`. */
    constructor Empty()
      ensures ideas == []
    {
      ideas := [];
    }

    /** `getIdeas`: the whole list, with the file left as it was. */
    method GetIdeas() returns (r: seq<Idea>)
      ensures r == ideas
    {
      r := ideas;
    }

    /**
     * `addIdea`: append `{id: now, text, votes: 0}` and write the list back.
     * `now` stands for `Date.now()`; nothing makes it differ from stored ids.
     */
    method AddIdea(now: int, text: string) returns (r: seq<Idea>)
      modifies this
      ensures |ideas| == |old(ideas)| + 1
      ensures ideas[..|old(ideas)|] == old(ideas)
      ensures ideas[|ideas| - 1] == Idea(now, text, 0)
      ensures r == ideas
    {
      var list := ideas;
      list := list + [Idea(now, text, 0)];
      ideas := list;
      r := list;
    }

    /**
     * `voteIdea`: add one vote to the first idea whose id is `id`. The file is
     * written (`wrote`) only when such an idea exists; the list is returned
     * either way.
     */
    method VoteIdea(id: int) returns (r: seq<Idea>, wrote: bool)
      modifies this
      ensures wrote <==> HasId(old(ideas), id)
      ensures ideas == AfterVote(old(ideas), id)
      ensures !wrote ==> ideas == old(ideas)
      ensures r == ideas
    {
      var list := ideas;
      var found := FindFirst(list, id);
      wrote := false;
      if found.Some? {
        var k := found.value;
        list := list[k := list[k].(votes := list[k].votes + 1)];
        ideas := list;
        wrote := true;
      }
      r := list;
    }

    /** `flushIdeas`: overwrite the file with `[]` and return `[]`. */
    method FlushIdeas() returns (r: seq<Idea>)
      modifies this
      ensures ideas == [] && r == []
    {
      ideas := [];
      r := [];
    }
  }

  /**
   * A session on a store that starts without a file: two ideas are added at
   * timestamps `first` and `second`, each receives one vote, and the store is
   * flushed. With distinct timestamps both ideas end with one vote; when the
   * two timestamps coincide both votes go to the earlier idea.
   */
  method TwoIdeasSession(first: int, second: int)
    returns (afterVotes: seq<Idea>, afterFlush: seq<Idea>)
    ensures first != second ==>
      afterVotes == [Idea(first, "Do a 24h stream", 1), Idea(second, "Raid train", 1)]
    ensures first == second ==>
      afterVotes == [Idea(first, "Do a 24h stream", 2), Idea(second, "Raid train", 0)]
    ensures afterFlush == []
  {
    var store := new IdeaStore.Empty();
    var l1 := store.AddIdea(first, "Do a 24h stream");
    assert l1 == [Idea(first, "Do a 24h stream", 0)];
    var l2, w1 := store.VoteIdea(first);
    VoteIncrementsFirstMatch(l1, first, 0);
    assert l2 == [Idea(first, "Do a 24h stream", 1)];
    var l3 := store.AddIdea(second, "Raid train");
    assert l3 == [Idea(first, "Do a 24h stream", 1), Idea(second, "Raid train", 0)];
    if first != second {
      VoteIncrementsFirstMatch(l3, second, 1);
    } else {
      VoteIncrementsFirstMatch(l3, second, 0);
    }
    var w2;
    afterVotes, w2 := store.VoteIdea(second);
    afterFlush := store.FlushIdeas();
    var listed := store.GetIdeas();
    assert listed == [];
  }
}
