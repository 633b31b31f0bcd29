/**
 * The chat transcript as the list of message bubbles inside the
 * `chatMessages` element, and the pure pieces the widget's handlers are
 * built from: the pending marker's id, finding and removing the marker,
 * and the bubble a settled request adds.
 */
module Transcript {
  import opened Wrappers
  import Text

  /** One bubble in the chat window. */
  datatype Entry =
    | Greeting              // the opening bubble set by openChat
    | User(text: string)    // what the user sent, exactly as typed
    | Pending(id: string)   // the "Thinking..." marker, addressed by its element id
    | Bot(text: string)     // the backend's `response` text
    | Error                 // the fixed apology shown on any failure

  const GreetingText: string := "Nas\U{0131}l yard\U{0131}mc\U{0131} olabiliriz?"
  const ThinkingText: string := "Thinking..."
  const ErrorText: string := "Sorry, there was an error processing your request."

  /** The text a bubble shows; user and bot texts are inserted without escaping. */
  function Display(e: Entry): string {
    match e
    case Greeting => GreetingText
    case User(t) => t
    case Pending(_) => ThinkingText
    case Bot(t) => t
    case Error => ErrorText
  }

  /** The id of the pending marker for a request sent at millisecond `now`: the prefix "loading-" and the timestamp's digits. */
  function LoadingId(now: nat): (id: string)
    ensures |id| > 8 && id[..8] == "loading-" && Text.IsDigits(id[8..])
  {
    "loading-" + Text.Decimal(now)
  }

  /** Two submissions share a marker id exactly when they happen in the same millisecond. */
  lemma LoadingIdInjective(a: nat, b: nat)
    ensures LoadingId(a) == LoadingId(b) <==> a == b
  {
    if LoadingId(a) == LoadingId(b) {
      assert Text.Decimal(a) == LoadingId(a)[8..];
      assert Text.Decimal(b) == LoadingId(b)[8..];
      Text.DecimalInjective(a, b);
    }
  }

  /** What the body of an HTTP response gives the promise chain. */
  datatype Body =
    | NotJson                // `response.json()` rejects
    | Unrenderable           // it parses, but reading or printing `data.response` throws (a `null` body, say)
    | Rendered(text: string) // `${data.response}`

  /** The outcome of the `fetch` call, as the promise chain sees it. */
  datatype Outcome =
    | Response(status: int, body: Body)  // an HTTP response
    | NetworkError                       // the request itself failed

  /** `response.ok`: the status is in the range 200-299. */
  predicate IsOk(status: int) {
    200 <= status <= 299
  }

  /**
   * The data handler throws after it has already removed a marker, so
   * the catch handler looks the id up and removes a marker a second time.
   */
  predicate ThrowsAfterRemoval(o: Outcome) {
    o.Response? && IsOk(o.status) && o.body.Unrenderable?
  }

  /** The bubble a settled request adds: the bot's text on an ok, rendered response, the fixed error otherwise. */
  function Reply(o: Outcome): (r: Entry)
    ensures r.Bot? <==> (o.Response? && IsOk(o.status) && o.body.Rendered?)
    ensures r.Bot? ==> r.text == o.body.text
    ensures r.Bot? || r == Error
  {
    match o
    case Response(status, body) =>
      if !IsOk(status) then Error
      else if !body.Rendered? then Error
      else Bot(body.text)
    case NetworkError => Error
  }

  /** A status outside 200-299 always ends in the error bubble, after a single lookup of the marker. */
  lemma NonOkStatusIsError(status: int, body: Body)
    requires !IsOk(status)
    ensures Reply(Response(status, body)) == Error
    ensures !ThrowsAfterRemoval(Response(status, body))
  {
  }

  /** The text the added bubble shows: the response text verbatim, or the fixed apology. */
  lemma ReplyShows(o: Outcome)
    ensures Display(Reply(o)) == if Reply(o).Bot? then o.body.text else ErrorText
  {
  }

  /** `getElementById`: the index of the first occurrence of `e`, if any. */
  function Find(t: seq<Entry>, e: Entry): (r: Option<nat>)
    ensures r.None? <==> e !in t
    ensures r.Some? ==> r.value < |t| && t[r.value] == e && e !in t[..r.value]
  {
    if t == [] then None
    else if t[0] == e then Some(0)
    else match Find(t[1..], e)
      case None => None
      case Some(i) =>
        assert t[..i + 1] == [t[0]] + t[1..][..i];
        Some(i + 1)
  }

  /** The transcript after `loadingElement.remove()`, or unchanged when no element was found. */
  function RemoveFirst(t: seq<Entry>, e: Entry): (r: seq<Entry>)
    ensures e !in t ==> r == t
    ensures e in t ==> |r| == |t| - 1
  {
    match Find(t, e)
    case None => t
    case Some(i) => t[..i] + t[i + 1..]
  }

  /** Removal takes out the first occurrence and keeps the others, in order, around it. */
  lemma RemoveFirstAt(t: seq<Entry>, e: Entry, i: nat)
    requires i < |t| && t[i] == e && e !in t[..i]
    ensures RemoveFirst(t, e) == t[..i] + t[i + 1..]
  {
    var j := Find(t, e).value;
    assert forall k :: 0 <= k < i ==> t[..i][k] == t[k];
    assert forall k :: 0 <= k < j ==> t[..j][k] == t[k];
  }

  /** Removal deletes exactly one copy of the entry when there is one, and nothing else. */
  lemma RemoveFirstSpec(t: seq<Entry>, e: Entry)
    ensures multiset(RemoveFirst(t, e)) == multiset(t) - multiset{e}
  {
    match Find(t, e)
    case None =>
    case Some(i) =>
      assert t == t[..i] + [t[i]] + t[i + 1..];
      assert multiset(t) == multiset(t[..i]) + multiset{e} + multiset(t[i + 1..]);
  }

  /** Entries before the removed marker keep their position; the greeting in particular stays first. */
  lemma RemoveFirstKeepsHead(t: seq<Entry>, e: Entry)
    requires t != [] && t[0] != e
    ensures RemoveFirst(t, e) != [] && RemoveFirst(t, e)[0] == t[0]
  {
    match Find(t, e)
    case None =>
    case Some(i) => assert i > 0;
  }

  /** The ids of the pending markers in `t`, with multiplicity. */
  function PendingIds(t: seq<Entry>): multiset<string> {
    if t == [] then multiset{}
    else PendingIds(t[..|t| - 1]) + (if t[|t| - 1].Pending? then multiset{t[|t| - 1].id} else multiset{})
  }

  /** The number of bot and error bubbles in `t`: one per settled request. */
  function ReplyCount(t: seq<Entry>): nat {
    if t == [] then 0
    else ReplyCount(t[..|t| - 1]) + (if t[|t| - 1].Bot? || t[|t| - 1].Error? then 1 else 0)
  }

  lemma {:induction false} CensusConcat(a: seq<Entry>, b: seq<Entry>)
    ensures PendingIds(a + b) == PendingIds(a) + PendingIds(b)
    ensures ReplyCount(a + b) == ReplyCount(a) + ReplyCount(b)
  {
    if b == [] {
      assert a + b == a;
    } else {
      assert (a + b)[..|a + b| - 1] == a + b[..|b| - 1];
      CensusConcat(a, b[..|b| - 1]);
    }
  }

  /** An id has a pending marker in `t` exactly when it is among `PendingIds(t)`. */
  lemma {:induction false} PendingIdsMember(t: seq<Entry>, id: string)
    ensures id in PendingIds(t) <==> Pending(id) in t
  {
    if t != [] {
      PendingIdsMember(t[..|t| - 1], id);
      assert t == t[..|t| - 1] + [t[|t| - 1]];
    }
  }

  /** Removing the first marker for `id` drops one copy of `id` from the pending ids and no reply. */
  lemma RemovePendingCensus(t: seq<Entry>, id: string)
    ensures PendingIds(RemoveFirst(t, Pending(id))) == PendingIds(t) - multiset{id}
    ensures ReplyCount(RemoveFirst(t, Pending(id))) == ReplyCount(t)
  {
    match Find(t, Pending(id))
    case None =>
      PendingIdsMember(t, id);
    case Some(i) =>
      var a, b := t[..i], t[i + 1..];
      assert t == (a + [Pending(id)]) + b;
      SpliceCensus(a, Pending(id), b);
  }

  /** Taking one entry out of the middle of a transcript changes the census by that entry alone. */
  lemma SpliceCensus(a: seq<Entry>, e: Entry, b: seq<Entry>)
    ensures PendingIds((a + [e]) + b) == PendingIds(a + b) + (if e.Pending? then multiset{e.id} else multiset{})
    ensures ReplyCount((a + [e]) + b) == ReplyCount(a + b) + (if e.Bot? || e.Error? then 1 else 0)
  {
    CensusConcat(a + [e], b);
    CensusAppend(a, e);
    CensusConcat(a, b);
  }

  /** Appending one bubble adds its pending id, or one reply, as the case may be. */
  lemma CensusAppend(t: seq<Entry>, e: Entry)
    ensures PendingIds(t + [e]) == PendingIds(t) + (if e.Pending? then multiset{e.id} else multiset{})
    ensures ReplyCount(t + [e]) == ReplyCount(t) + (if e.Bot? || e.Error? then 1 else 0)
  {
    assert (t + [e])[..|t + [e]| - 1] == t;
  }
}
