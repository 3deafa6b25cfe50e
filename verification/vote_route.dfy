/**
 * The `POST /api/vote` handler of src/app/api/vote/route.ts: validate the
 * `id` of the request body, vote through the idea store, and map the outcome
 * to 400, 404 or 200.
 */
module VoteRoute {
  import opened Wrappers
  import opened Ideas

  /** The JSON reply: the idea list on success, an error object otherwise. */
  datatype Response =
    | Json(status: int, ideas: seq<Idea>)
    | Error(status: int, message: string)

  /**
   * `!id` in JavaScript for an integer-valued `body.id`: true when the field
   * is missing or null (`None`) and when it is 0.
   */
  predicate Falsy(id: Option<int>) {
    id == None || id == Some(0)
  }

  /** The reply to a request whose `id` is missing or falsy. */
  const IdRequired: Response := Error(400, "ID is required")

  /** The reply when the list after voting has no idea with the requested id. */
  const NotFound: Response := Error(404, "Idea not found")

  /**
   * The check made on the list `voteIdea` returned: 404 when no idea in it
   * has `id`, otherwise 200 carrying that list.
   */
  function Respond(id: int, updated: seq<Idea>): (resp: Response)
    ensures resp.status == 404 <==> !HasId(updated, id)
    ensures resp.status == 404 ==> resp == NotFound
    ensures resp.status != 404 ==> resp == Json(200, updated)
  {
    if FindFirst(updated, id).None? then NotFound else Json(200, updated)
  }

  /** What one request leaves behind: the reply and the store afterwards. */
  datatype Outcome = Outcome(response: Response, store: seq<Idea>)

  /**
   * The whole handler over a store holding `before`: a falsy id is refused
   * without voting; an absent id gets 404 with the store untouched; a present
   * id gets 200 and the list with one more vote on its first idea.
   */
  function Handle(before: seq<Idea>, id: Option<int>): (out: Outcome)
    ensures Falsy(id) ==> out == Outcome(IdRequired, before)
    ensures !Falsy(id) && !HasId(before, id.value) ==> out == Outcome(NotFound, before)
    ensures !Falsy(id) && HasId(before, id.value) ==>
      out.store == AfterVote(before, id.value) && out.response == Json(200, out.store)
  {
    if Falsy(id) then Outcome(IdRequired, before)
    else
      var updated := AfterVote(before, id.value);
      VoteKeepsIds(before, id.value);
      Outcome(Respond(id.value, updated), updated)
  }

  /**
   * The status is 404 exactly when a usable id is not among the ids stored
   * before the request, although the handler looks it up only after voting.
   */
  lemma NotFoundIffAbsentBefore(before: seq<Idea>, id: Option<int>)
    ensures Handle(before, id).response.status == 400 <==> Falsy(id)
    ensures Handle(before, id).response.status == 404 <==>
      !Falsy(id) && id.value !in Ids(before)
    ensures Handle(before, id).response.status == 200 <==>
      !Falsy(id) && id.value in Ids(before)
  {
  }

  /**
   * `POST`: the handler run against the store. It votes only when the id is
   * usable, and its reply and the store's new contents are those of `Handle`.
   */
  method Post(store: IdeaStore, id: Option<int>) returns (resp: Response)
    modifies store
    ensures Outcome(resp, store.ideas) == Handle(old(store.ideas), id)
    ensures Falsy(id) ==> resp.status == 400 && store.ideas == old(store.ideas)
  {
    if Falsy(id) {
      return IdRequired;
    }
    var updated, _ := store.VoteIdea(id.value);
    if FindFirst(updated, id.value).None? {
      return NotFound;
    }
    return Json(200, updated);
  }
}
