# Idea store and vote endpoint of a streaming-ideas voting board

This project models the server-side core of a small voting board. Users submit
short text ideas and vote on them, and the list of ideas is kept in one JSON
file (`data/ideas.json`). The model covers two parts:

- the **idea store** (`src/lib/ideas.ts`), with `getIdeas`, `addIdea`, `voteIdea`
  and `flushIdeas`. `getIdeas` only reads the file, and creates it as `[]`
  when it is missing. `addIdea` reads the array, appends to it and writes it
  back. `voteIdea` reads the array and writes it back only when an idea
  matched. `flushIdeas` writes `[]` without reading. In the model the file is
  the field `ideas: seq<Idea>` of the class `Ideas.IdeaStore`, and every
  operation is a method on it. The pure functions `FindFirst` (what
  `Array.prototype.find` selects) and `AfterVote` (the list a vote leaves)
  specify `voteIdea`. The lemmas beside them state what a vote changes and
  what it keeps;
- the **vote endpoint** (`POST /api/vote`, `src/app/api/vote/route.ts`). A
  missing or falsy `id` gets 400. Otherwise the handler votes, and it answers
  404 when the returned list has no idea with that id and 200 with the list
  when it has one. `VoteRoute.Handle` is the decision as a function of the
  store before the call, and `VoteRoute.Post` is the handler as a method that
  changes the store.

Files: `wrappers.dfy` (the `Option` datatype), `ideas.dfy` (module `Ideas`),
`vote_route.dfy` (module `VoteRoute`).

Where the program's evident intent and its code disagree, the model follows
the code:

- The page uses `idea.id` as the React `key` of each list item
  (`src/app/page.tsx:87`) and sends it back to choose the idea to vote for
  (`src/app/page.tsx:91`), so ids are evidently meant to tell ideas apart.
  But `addIdea` takes `Date.now()` (`src/lib/ideas.ts:48`) and never checks
  it against the stored ids, and two ideas added in the same millisecond get
  the same id. `AddIdea` takes the timestamp as the parameter `now` and
  promises no uniqueness. `AfterVote` votes for the first match only, as
  `find` does. `TwoIdeasSession` shows both outcomes: with two equal
  timestamps, both votes go to the earlier idea.
- The handler's error message "ID is required" (`src/app/api/vote/route.ts:10`)
  speaks of a missing id, but the test is JavaScript's `!id`
  (`src/app/api/vote/route.ts:9`), so an id of 0 also gets 400
  (`VoteRoute.Falsy`).
- The handler decides 404 on the list *after* voting (route.ts line 14), not
  before it. `NotFoundIffAbsentBefore` proves that the two are the same.

## Model

| member | source | states |
|---|---|---|
| `Ideas.FindFirst` | src/lib/ideas.ts:59 | finds a position exactly when some idea has the id; that position holds the id and no earlier position does |
| `Ideas.AfterVote` | src/lib/ideas.ts:59-63 | the list `voteIdea` leaves behind: same length, and equal to the input exactly when no idea has the id; `VoteIncrementsFirstMatch`, `VoteAbsentUnchanged` and `VoteKeepsIds` characterise it in full |
| `Ideas.VoteIncrementsFirstMatch` | src/lib/ideas.ts:58-63 | voting gives the first idea with the id exactly one more vote and keeps its id and text; every other entry is unchanged, including later ideas with the same id; length and order are kept |
| `Ideas.VoteAbsentUnchanged` | src/lib/ideas.ts:59-66 | voting for an id that no idea has returns the list exactly as it was |
| `Ideas.VoteKeepsIds` | src/lib/ideas.ts:57-67 | voting keeps every idea's id and text and never lowers a count; the id sequence, the multiset of ids and whether the id is present are the same before and after |
| `Ideas.TotalVotesUpdate` | src/lib/ideas.ts:62 | setting one idea's count to v changes the total vote count by v minus the old count |
| `Ideas.VoteAddsOne` | src/lib/ideas.ts:59-63 | a vote raises the total vote count by exactly 1 when the id is stored and by 0 otherwise |
| `Ideas.IdeaStore.constructor` | src/lib/ideas.ts:27-29 | a store over an existing file holds the list the file holds |
| `Ideas.IdeaStore.Empty` | src/lib/ideas.ts:22-24 | a store whose file did not exist starts out empty |
| `Ideas.IdeaStore.GetIdeas` | src/lib/ideas.ts:41-43 | returns the stored list and modifies nothing, so two calls in a row return equal lists |
| `Ideas.IdeaStore.AddIdea` | src/lib/ideas.ts:45-55 | the new list is the old list, unchanged and in the same order, plus one idea `{now, text, 0}` at the end; length grows by 1; the stored list equals the returned list |
| `Ideas.IdeaStore.VoteIdea` | src/lib/ideas.ts:57-67 | the store becomes `AfterVote` of the old store; the write happens exactly when the id was present; with no match the store is unchanged; the returned list is the stored list |
| `Ideas.IdeaStore.FlushIdeas` | src/lib/ideas.ts:69-72 | the store is empty and the returned list is empty, so a following `GetIdeas` returns `[]` |
| `Ideas.TwoIdeasSession` | src/lib/ideas.ts:41-72 | start without a file, add two ideas, vote for each id, flush: with distinct timestamps both ideas have 1 vote; with equal timestamps the first has 2 and the second 0; after the flush the list is empty |
| `VoteRoute.Falsy` | src/app/api/vote/route.ts:9 | the `!id` test restricted to integer ids: true for a missing or null id and for 0, false for every other integer |
| `VoteRoute.Respond` | src/app/api/vote/route.ts:13-18 | 404 "Idea not found" exactly when the updated list has no idea with the id; otherwise 200 carrying the updated list |
| `VoteRoute.Handle` | src/app/api/vote/route.ts:4-18 | falsy id: 400 "ID is required" and the store is unchanged; absent id: 404 and the store is unchanged; present id: 200 with the store after one vote on its first idea |
| `VoteRoute.NotFoundIffAbsentBefore` | src/app/api/vote/route.ts:9-16 | status 400 exactly for a falsy id; 404 exactly when a usable id is not among the ids stored before the call; 200 exactly when it is among them |
| `VoteRoute.Post` | src/app/api/vote/route.ts:4-18 | the reply and the new store contents are those `Handle` gives for the old store; a falsy id gives 400 and leaves the store unchanged, so no vote happens |

## Left out

- File system work (`ensureDataDirectory`, `existsSync`, `mkdirSync`, `readFileSync`, `writeFileSync`, src/lib/ideas.ts:12-39): the file is the `ideas` field. A write is an assignment to it. `VoteIdea` also reports whether it wrote.
- JSON serialisation, and the fallback to `[]` when the file does not parse (src/lib/ideas.ts:27-33). The parsing is library code. The constructor takes the parsed list as given.
- `Date.now()` (src/lib/ideas.ts:48): the clock is the `now` parameter of `AddIdea`.
- The `try`/`catch` that turns any exception into 500, plus `request.json()` and `NextResponse` (src/app/api/vote/route.ts:5-6, 19-22). These are framework plumbing. The model's reply is the `Response` datatype.
- Request ids that are not integers (strings, `NaN`, fractions). `id` is `Option<int>`, and only `None` and `0` are falsy.
- `votes` is a JavaScript number. The model uses unbounded naturals and ignores the loss of precision above 2^53.
- Interleaved read-modify-write cycles of concurrent requests, which can lose an update. Each method runs as a whole.
- The page component with its React state and `fetch` calls, its sort by votes for display, the sign-in UI (`src/app/page.tsx`) and the analytics initialisation (`src/app/LitInitializer.ts`). None of this is part of the store or the endpoint.
