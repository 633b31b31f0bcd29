/**
 * One open chat window and its message exchange: the state `openChat`
 * builds (the `chatMessages` bubbles and the input field) and the
 * handlers that change it (`sendMessage` and the settlement of its request).
 */
module ChatWidget {
  import opened Wrappers
  import Text
  import Endpoint
  import opened Transcript

  /** One call to `fetch`: where it goes, its `X-Origin-Domain` header, its `message` body, and the marker its handlers look for. */
  datatype Request = Request(url: string, originDomain: string, message: string, loadingId: string)

  /** The transcript after a non-blank submission of `text` at millisecond `now`: the old entries, the user's bubble, then one new marker. */
  function Submitted(t: seq<Entry>, text: string, now: nat): (r: seq<Entry>)
    ensures |r| == |t| + 2 && r[..|t|] == t && r[|t|] == User(text) && r[|t| + 1] == Pending(LoadingId(now))
    ensures PendingIds(r) == PendingIds(t) + multiset{LoadingId(now)}
    ensures ReplyCount(r) == ReplyCount(t)
  {
    CensusAppend(t, User(text));
    CensusAppend(t + [User(text)], Pending(LoadingId(now)));
    assert t + [User(text), Pending(LoadingId(now))] == t + [User(text)] + [Pending(LoadingId(now))];
    t + [User(text), Pending(LoadingId(now))]
  }

  /** The markers left after the lookups for `id`: one, or a second one when the data handler throws after removing. */
  function Cleared(t: seq<Entry>, id: string, outcome: Outcome): seq<Entry> {
    var once := RemoveFirst(t, Pending(id));
    if ThrowsAfterRemoval(outcome) then RemoveFirst(once, Pending(id)) else once
  }

  /**
   * The transcript after the handlers of the request with marker `id` ran
   * with `outcome`; `attached` says whether the window is still in the
   * document, where `getElementById` can find markers. Exactly one bubble
   * is appended; at most one marker is removed, or two when the data
   * handler throws after its removal and the catch handler finds a
   * same-id marker.
   */
  function Settled(t: seq<Entry>, id: string, outcome: Outcome, attached: bool): (r: seq<Entry>)
    ensures |r| >= 1 && r[|r| - 1] == Reply(outcome)
    ensures !attached || Pending(id) !in t ==> r == t + [Reply(outcome)]
    ensures attached && Pending(id) in t && !ThrowsAfterRemoval(outcome) ==> |r| == |t|
    ensures |t| - (if ThrowsAfterRemoval(outcome) then 1 else 0) <= |r| <= |t| + 1
  {
    (if attached then Cleared(t, id, outcome) else t) + [Reply(outcome)]
  }

  /**
   * How many in-flight requests of each id have lost their marker to a
   * same-id request's catch handler, after the request `id` settles.
   * Its own lookup either finds a marker or confirms that its marker was
   * lost; a second lookup that finds a marker takes it from another one.
   */
  ghost function LostAfter(t: seq<Entry>, lost: multiset<string>, id: string, outcome: Outcome, attached: bool): (r: multiset<string>)
    ensures !ThrowsAfterRemoval(outcome) ==> r <= lost
    ensures r <= lost + multiset{id}
  {
    if !attached then lost
    else
      var own := if Pending(id) in t then lost else lost - multiset{id};
      if ThrowsAfterRemoval(outcome) && Pending(id) in RemoveFirst(t, Pending(id)) then own + multiset{id} else own
  }

  /**
   * The invariant of a chat window that has sent `sent` requests, of
   * which those with marker ids `inFlight` have not settled: the greeting
   * comes first; every settled request added exactly one reply; and while
   * the window is attached, every in-flight request either still has its
   * marker or is counted in `lost`.
   */
  ghost predicate Consistent(t: seq<Entry>, inFlight: multiset<string>, lost: multiset<string>, sent: nat, attached: bool) {
    && |t| >= 1 && t[0] == Greeting
    && ReplyCount(t) + |inFlight| == sent
    && (attached ==> PendingIds(t) + lost == inFlight)
  }

  /** A submission adds one in-flight request together with its marker. */
  lemma SubmitPreserves(t: seq<Entry>, inFlight: multiset<string>, lost: multiset<string>, sent: nat, attached: bool, text: string, now: nat)
    requires Consistent(t, inFlight, lost, sent, attached)
    ensures Consistent(Submitted(t, text, now), inFlight + multiset{LoadingId(now)}, lost, sent + 1, attached)
  {
    assert Submitted(t, text, now)[0] == Submitted(t, text, now)[..|t|][0];
  }

  /**
   * One lookup-and-removal for `id` keeps the census of an attached window
   * balanced: `RemovePendingCensus`, `PendingIdsMember` and
   * `RemoveFirstKeepsHead` collected in the form `ClearedCensus` uses.
   */
  lemma LookupCensus(t: seq<Entry>, id: string)
    ensures PendingIds(RemoveFirst(t, Pending(id))) == PendingIds(t) - multiset{id}
    ensures ReplyCount(RemoveFirst(t, Pending(id))) == ReplyCount(t)
    ensures t != [] && t[0] == Greeting ==> RemoveFirst(t, Pending(id)) != [] && RemoveFirst(t, Pending(id))[0] == Greeting
    ensures id in PendingIds(t) <==> Pending(id) in t
  {
    RemovePendingCensus(t, id);
    PendingIdsMember(t, id);
    if t != [] && t[0] == Greeting {
      RemoveFirstKeepsHead(t, Pending(id));
    }
  }

  /** Taking `x` out of an in-flight census, whether `x` was counted among the markers or among the lost. */
  lemma CensusTake(markers: multiset<string>, lost: multiset<string>, x: string)
    requires x in markers + lost
    ensures x in markers ==> (markers - multiset{x}) + lost == (markers + lost) - multiset{x}
    ensures x !in markers ==> markers + (lost - multiset{x}) == (markers + lost) - multiset{x}
  {
  }

  /** The lookups of a settlement in an attached window keep the census balanced, with the lost markers accounted by `LostAfter`. */
  lemma ClearedCensus(t: seq<Entry>, inFlight: multiset<string>, lost: multiset<string>, id: string, outcome: Outcome)
    requires PendingIds(t) + lost == inFlight && id in inFlight
    ensures PendingIds(Cleared(t, id, outcome)) + LostAfter(t, lost, id, outcome, true) == inFlight - multiset{id}
    ensures ReplyCount(Cleared(t, id, outcome)) == ReplyCount(t)
    ensures t != [] && t[0] == Greeting ==> Cleared(t, id, outcome) != [] && Cleared(t, id, outcome)[0] == Greeting
  {
    var once := RemoveFirst(t, Pending(id));
    var own := if Pending(id) in t then lost else lost - multiset{id};
    LookupCensus(t, id);
    CensusTake(PendingIds(t), lost, id);
    assert PendingIds(once) + own == inFlight - multiset{id};
    if ThrowsAfterRemoval(outcome) {
      LookupCensus(once, id);
      if Pending(id) in once {
        assert LostAfter(t, lost, id, outcome, true) == own + multiset{id};
        CensusTake(PendingIds(once), own + multiset{id}, id);
      } else {
        assert LostAfter(t, lost, id, outcome, true) == own;
      }
    } else {
      assert LostAfter(t, lost, id, outcome, true) == own;
    }
  }

  /** While no marker has been lost, every in-flight request's marker is in the attached window. */
  lemma MarkerFound(t: seq<Entry>, inFlight: multiset<string>, sent: nat, id: string)
    requires Consistent(t, inFlight, multiset{}, sent, true) && id in inFlight
    ensures Pending(id) in t
  {
    PendingIdsMember(t, id);
  }

  /**
   * Settling an in-flight request adds exactly one reply and keeps the
   * invariant, with the lost markers accounted by `LostAfter`.
   */
  lemma SettlePreserves(t: seq<Entry>, inFlight: multiset<string>, lost: multiset<string>, sent: nat, attached: bool, id: string, outcome: Outcome)
    requires Consistent(t, inFlight, lost, sent, attached) && id in inFlight
    ensures Consistent(Settled(t, id, outcome, attached), inFlight - multiset{id}, LostAfter(t, lost, id, outcome, attached), sent, attached)
    ensures ReplyCount(Settled(t, id, outcome, attached)) == ReplyCount(t) + 1
  {
    var removed := if attached then Cleared(t, id, outcome) else t;
    if attached {
      ClearedCensus(t, inFlight, lost, id, outcome);
    }
    CensusAppend(removed, Reply(outcome));
  }

  /** While no marker has been lost, a settlement in the attached window swaps its marker for the reply, keeping the length. */
  lemma SettleKeepsLength(t: seq<Entry>, inFlight: multiset<string>, sent: nat, id: string, outcome: Outcome)
    requires Consistent(t, inFlight, multiset{}, sent, true) && id in inFlight && !ThrowsAfterRemoval(outcome)
    ensures |Settled(t, id, outcome, true)| == |t|
  {
    MarkerFound(t, inFlight, sent, id);
  }

  /** Once every request has settled, no "Thinking..." marker is left in the attached window. */
  lemma NoOrphanMarkers(t: seq<Entry>, lost: multiset<string>, sent: nat)
    requires Consistent(t, multiset{}, lost, sent, true)
    ensures forall i :: 0 <= i < |t| ==> !t[i].Pending?
  {
    forall i | 0 <= i < |t| ensures !t[i].Pending? {
      if t[i].Pending? {
        PendingIdsMember(t, t[i].id);
      }
    }
  }

  class Widget {
    /** The endpoint chosen when the script loaded. */
    const endpoint: string
    /** `window.location.origin` of the host page. */
    const origin: string
    /** The bubbles inside `chatMessages`, in order. */
    var transcript: seq<Entry>
    /** `inputField.value`. */
    var input: string
    /** Whether the window is still attached to the document (the header click detaches it). */
    var open: bool
    /** Every request sent, in order. */
    var requests: seq<Request>
    /** The marker ids of the requests whose handlers have not run yet. */
    ghost var inFlight: multiset<string>
    /** The ids of in-flight requests whose marker a same-id request's catch handler removed. */
    ghost var lost: multiset<string>

    /** The window invariant, `Consistent`, of the current state. */
    ghost predicate Valid()
      reads this
    {
      Consistent(transcript, inFlight, lost, |requests|, open)
    }

    /**
     * `openChat` on a page whose script tag carries `dataApiUrl`: the
     * window holds only the greeting and the input field is empty.
     */
    constructor (dataApiUrl: Option<string>, origin: string)
      ensures Valid()
      ensures endpoint == Endpoint.ApiEndpoint(dataApiUrl) && this.origin == origin
      ensures transcript == [Greeting] && input == "" && open
      ensures requests == [] && inFlight == multiset{} && lost == multiset{}
    {
      endpoint := Endpoint.ApiEndpoint(dataApiUrl);
      this.origin := origin;
      transcript := [Greeting];
      input := "";
      open := true;
      requests := [];
      inFlight := multiset{};
      lost := multiset{};
    }

    /** The user types into the input field (any text; a text input in a browser never holds line breaks). */
    method Edit(text: string)
      requires Valid() && open
      modifies this`input
      ensures Valid()
      ensures input == text
    {
      input := text;
    }

    /** The header is clicked: the window leaves the document, so its markers can no longer be found by id. */
    method Close()
      requires Valid() && open
      modifies this`open
      ensures Valid()
      ensures !open
    {
      open := false;
    }

    /**
     * `sendMessage`, with `now` standing for `Date.now()`. Blank input is
     * ignored. Otherwise the untrimmed text is shown and sent, the input
     * is cleared and a pending marker is appended.
     */
    method Submit(now: nat)
      requires Valid() && open
      modifies this`transcript, this`input, this`requests, this`inFlight
      ensures Valid()
      ensures Text.IsBlank(old(input)) ==>
        transcript == old(transcript) && input == old(input)
        && requests == old(requests) && inFlight == old(inFlight)
      ensures !Text.IsBlank(old(input)) ==>
        && transcript == Submitted(old(transcript), old(input), now)
        && input == ""
        && requests == old(requests) + [Request(Endpoint.RequestUrl(endpoint, origin), origin, old(input), LoadingId(now))]
        && inFlight == old(inFlight) + multiset{LoadingId(now)}
    {
      var userMessage := input;
      if Text.Trim(userMessage) == [] {
        assert Text.IsBlank(userMessage) by { Text.TrimEmptyIffBlank(userMessage); }
        return;
      }
      assert !Text.IsBlank(userMessage) by { Text.TrimEmptyIffBlank(userMessage); }
      ghost var t0 := transcript;
      transcript := transcript + [User(userMessage)];
      input := "";
      var currentDomain := origin;
      var apiUrl := Endpoint.RequestUrl(endpoint, origin);
      var loadingId := LoadingId(now);
      transcript := transcript + [Pending(loadingId)];
      requests := requests + [Request(apiUrl, currentDomain, userMessage, loadingId)];
      SubmitPreserves(t0, inFlight, lost, |requests| - 1, open, userMessage, now);
      inFlight := inFlight + multiset{loadingId};
      assert transcript == Submitted(t0, userMessage, now);
    }

    /**
     * `document.getElementById(loadingId)` and, when it finds an element,
     * `remove()`. One step of `Settle`; on its own it does not keep `Valid()`.
     */
    method RemoveMarker(id: string)
      modifies this`transcript
      ensures transcript == if open then RemoveFirst(old(transcript), Pending(id)) else old(transcript)
    {
      var loadingElement := if open then Find(transcript, Pending(id)) else None;
      if loadingElement.Some? {
        transcript := transcript[..loadingElement.value] + transcript[loadingElement.value + 1..];
      }
    }

    /**
     * The `.then`/`.catch` handlers of the request whose marker is `id`.
     * The handler that runs removes the marker if the document still
     * holds one. When the data handler throws after its removal, the
     * catch handler looks the id up and removes again. Then the bot's text
     * or the fixed apology is appended.
     */
    method Settle(id: string, outcome: Outcome)
      requires Valid() && id in inFlight
      modifies this`transcript, this`inFlight, this`lost
      ensures Valid()
      ensures transcript == Settled(old(transcript), id, outcome, open)
      ensures inFlight == old(inFlight) - multiset{id}
      ensures lost == LostAfter(old(transcript), old(lost), id, outcome, open)
      ensures open && old(lost) == multiset{} && !ThrowsAfterRemoval(outcome) ==> |transcript| == |old(transcript)|
    {
      ghost var before := transcript;
      RemoveMarker(id);
      if ThrowsAfterRemoval(outcome) {
        RemoveMarker(id);
      }
      transcript := transcript + [Reply(outcome)];
      assert transcript == Settled(before, id, outcome, open);
      SettlePreserves(before, inFlight, lost, |requests|, open, id, outcome);
      if open && lost == multiset{} && !ThrowsAfterRemoval(outcome) {
        SettleKeepsLength(before, inFlight, |requests|, id, outcome);
      }
      lost := LostAfter(before, lost, id, outcome, open);
      inFlight := inFlight - multiset{id};
    }
  }

  /** A freshly opened window on a page without `data-api-url`, where the user types only spaces and presses send. */
  method BlankInputScenario() returns (shown: seq<Entry>, sent: seq<Request>, kept: string)
    ensures shown == [Greeting] && sent == [] && kept == "   "
  {
    var w := new Widget(None, "https://shop.example");
    w.Edit("   ");
    assert Text.IsBlank(w.input);
    w.Submit(5);
    shown, sent, kept := w.transcript, w.requests, w.input;
  }

  /** "hello" answered with 200 and "hi there": the marker gives way to the bot's bubble. */
  lemma HelloExchange()
    ensures Settled(Submitted([Greeting], "hello", 1000), LoadingId(1000), Response(200, Rendered("hi there")), true)
         == [Greeting, User("hello"), Bot("hi there")]
  {
    var t := Submitted([Greeting], "hello", 1000);
    assert Find(t, Pending(LoadingId(1000))) == Some(2);
  }

  /** A 503 from the server ends in the fixed error bubble, never a bot bubble. */
  lemma ServerErrorExchange(body: Body)
    ensures Settled(Submitted([Greeting], "hi", 7), LoadingId(7), Response(503, body), true)
         == [Greeting, User("hi"), Error]
  {
    var t := Submitted([Greeting], "hi", 7);
    assert Find(t, Pending(LoadingId(7))) == Some(2);
  }

  /**
   * Two submissions in the same millisecond share a marker id. When the
   * first is answered with an ok status and a `null` body, its data
   * handler removes the first marker and throws, and its catch handler
   * removes the second one before appending the apology.
   */
  lemma TwinMarkerExchange(a: string, b: string)
    ensures Settled(Submitted(Submitted([Greeting], a, 5), b, 5), LoadingId(5), Response(200, Unrenderable), true)
         == [Greeting, User(a), User(b), Error]
  {
    var x := LoadingId(5);
    var t := Submitted(Submitted([Greeting], a, 5), b, 5);
    assert t == [Greeting, User(a), Pending(x), User(b), Pending(x)];
    assert t[..2] == [Greeting, User(a)];
    RemoveFirstAt(t, Pending(x), 2);
    var once := RemoveFirst(t, Pending(x));
    assert once == [Greeting, User(a), User(b), Pending(x)];
    assert once[..3] == [Greeting, User(a), User(b)];
    RemoveFirstAt(once, Pending(x), 3);
    assert Reply(Response(200, Unrenderable)) == Error;
  }
}
