/** The Page webhook receiver (the POST handler of app/api/webhook/route.ts).
    It relays every event to Slack as its JSON text, then posts one fixed
    promotional comment on each post named by a `feed` change whose `item` is
    `post`, whatever its `verb` (an edit or removal counts too). Every
    outbound request is awaited in turn; the first one that rejects, and any
    TypeError raised while walking the event, end the handler with a generic
    500. HTTP statuses of the outbound responses are never inspected. */
module Webhook {
  import opened Js

  /** The fields of a change's `value` that the handler reads. */
  datatype FeedValue = FeedValue(item: Option<string>, postId: Option<string>)

  /** One change of an entry; `value` is None when the payload carries none. */
  datatype Change = Change(field: string, value: Option<FeedValue>)

  /** One entry; `changes` is None when the payload carries none. */
  datatype Entry = Entry(changes: Option<seq<Change>>)

  /** The parsed event; `obj` is its `object` field, and `entry` is None when
      absent or falsy. Fields the handler never reads are not represented:
      they reach Slack only through the event's JSON text. */
  datatype Event = Event(obj: Option<string>, entry: Option<seq<Entry>>)

  /** What `await req.json()` gives: a rejection for malformed JSON, the
      value `null`, or an event. `json` is `JSON.stringify` of the whole
      parsed value, fields the handler never reads included. */
  datatype Body = Malformed | Null | Parsed(event: Event, json: string)

  /** An outbound request: the Slack notification carrying the event's JSON
      text, or a comment on a post made with the page token. */
  datatype Request =
    | NotifySlack(webhookUrl: string, eventJson: string)
    | CommentOnPost(postId: Option<string>, accessToken: string)

  /** The JSON body of an outbound POST. */
  datatype Payload = SlackText(text: string) | CommentBody(message: string, accessToken: string)

  datatype Reply = Succeeded | Failed(error: string)
  datatype Response = Response(status: int, reply: Reply)

  const MissingConfig := Response(400, Failed("Missing Slack webhook URL or access token"))
  const ProcessingFailed := Response(500, Failed("Failed to process event"))
  const Accepted := Response(200, Succeeded)

  const PromoMessage := "Stream and Download Xhosa Hip Hop Videos on https://www.xhap.co.za\nShop & Blog on https://espazza.co.za"

  const GraphRoot := "https://graph.facebook.com/v19.0/"

  /** Where a request is POSTed: the Slack webhook as configured, or the
      comments edge of the post, named by the post id's template text. */
  function Url(r: Request): (u: string)
    ensures r.NotifySlack? ==> u == r.webhookUrl
    ensures r.CommentOnPost? ==>
              && |u| == |GraphRoot| + |TemplateText(r.postId)| + 9
              && u[..|GraphRoot|] == GraphRoot
              && u[|GraphRoot|..|u| - 9] == TemplateText(r.postId)
              && u[|u| - 9..] == "/comments"
  {
    match r
    case NotifySlack(url, _) => url
    case CommentOnPost(postId, _) => GraphRoot + TemplateText(postId) + "/comments"
  }

  /** Two comment requests for post ids that are present go to the same
      endpoint exactly when they name the same post. */
  lemma CommentUrlsDistinct(a: string, b: string, t1: string, t2: string)
    ensures Url(CommentOnPost(Some(a), t1)) == Url(CommentOnPost(Some(b), t2)) <==> a == b
  {
    var u := Url(CommentOnPost(Some(a), t1));
    var v := Url(CommentOnPost(Some(b), t2));
    if u == v {
      assert a == u[|GraphRoot|..|u| - 9] == v[|GraphRoot|..|v| - 9] == b;
    }
  }

  /** What a request carries: the event's JSON text after a fixed label for
      Slack, and for a comment the fixed promotional message with the page
      token, whatever the post. */
  function PayloadOf(r: Request): (p: Payload)
    ensures p.SlackText? <==> r.NotifySlack?
    ensures r.NotifySlack? ==> |p.text| == 16 + |r.eventJson| && p.text[..16] == "Received event: " && p.text[16..] == r.eventJson
    ensures r.CommentOnPost? ==> p.message == PromoMessage && p.accessToken == r.accessToken
  {
    match r
    case NotifySlack(_, json) => SlackText("Received event: " + json)
    case CommentOnPost(_, token) => CommentBody(PromoMessage, token)
  }

  /** One comment request per post id, in order. */
  function Comments(postIds: seq<Option<string>>, token: string): (rs: seq<Request>)
    ensures |rs| == |postIds|
    decreases |postIds|
  {
    if postIds == [] then []
    else Comments(postIds[..|postIds| - 1], token) + [CommentOnPost(postIds[|postIds| - 1], token)]
  }

  /** Walking (part of) the event: the posts commented on, in order, and
      whether the walk stopped on a TypeError. */
  datatype Walk = Walk(postIds: seq<Option<string>>, crashed: bool)

  const Nothing := Walk([], false)

  /** Walk `a`, then `b` unless `a` stopped. */
  function Then(a: Walk, b: Walk): Walk {
    if a.crashed then a else Walk(a.postIds + b.postIds, b.crashed)
  }

  /** Walking a sequence element by element, stopping at the first crash. */
  function Fold<T>(xs: seq<T>, step: T -> Walk): Walk
    decreases |xs|
  {
    if xs == [] then Nothing else Then(Fold(xs[..|xs| - 1], step), step(xs[|xs| - 1]))
  }

  /** One change: only a `feed` change reads `value`, which throws when absent. */
  function ChangeStep(c: Change): Walk {
    if c.field != "feed" then Nothing
    else match c.value
      case None => Walk([], true)
      case Some(v) => if v.item == Some("post") then Walk([v.postId], false) else Nothing
  }

  /** One entry: `for (const change of entry.changes)` throws when absent. */
  function EntryStep(e: Entry): Walk {
    match e.changes
    case None => Walk([], true)
    case Some(cs) => Fold(cs, ChangeStep)
  }

  /** The comment loop runs only when `object === 'page'` and `entry` is truthy. */
  function CommentWalk(ev: Event): Walk {
    if ev.obj == Some("page") && ev.entry.Some? then Fold(ev.entry.value, EntryStep) else Nothing
  }

  /** Every request the handler makes for a parsed event when none rejects. */
  function Planned(ev: Event, json: string, slackUrl: string, token: string): (rs: seq<Request>)
    ensures |rs| >= 1
  {
    [NotifySlack(slackUrl, json)] + Comments(CommentWalk(ev).postIds, token)
  }

  /** The plan is the Slack message followed by one comment per post the
      walk finds, in the order found, each made with the page token. */
  lemma PlannedAt(ev: Event, json: string, slackUrl: string, token: string)
    ensures var rs := Planned(ev, json, slackUrl, token);
            && rs[0] == NotifySlack(slackUrl, json)
            && forall k :: 1 <= k < |rs| ==> rs[k] == CommentOnPost(CommentWalk(ev).postIds[k - 1], token)
  {
    var rs := Planned(ev, json, slackUrl, token);
    forall k | 1 <= k < |rs|
      ensures rs[k] == CommentOnPost(CommentWalk(ev).postIds[k - 1], token)
    {
      CommentsAt(CommentWalk(ev).postIds, token, k - 1);
    }
  }

  /** Whether one of `n` planned requests rejects, `rejectAt` being the
      position of the first outbound request to reject, if any. */
  predicate Rejects(n: nat, rejectAt: Option<nat>) {
    rejectAt.Some? && rejectAt.value < n
  }

  /** How many of `n` planned requests are issued: up to and including the
      first one that rejects. */
  function Issued(n: nat, rejectAt: Option<nat>): nat {
    if Rejects(n, rejectAt) then rejectAt.value + 1 else n
  }

  predicate Configured(slackUrl: Option<string>, pageToken: Option<string>) {
    Truthy(slackUrl) && Truthy(pageToken)
  }

  lemma ThenAssoc(a: Walk, b: Walk, c: Walk)
    ensures Then(Then(a, b), c) == Then(a, Then(b, c))
  {
    if !a.crashed && !b.crashed {
      assert a.postIds + b.postIds + c.postIds == a.postIds + (b.postIds + c.postIds);
    }
  }

  /** The walk of a prefix is a prefix of the walk, and a crash in the prefix
      is where the whole walk ends. */
  lemma {:induction false} FoldPrefix<T>(xs: seq<T>, step: T -> Walk, i: nat)
    requires i <= |xs|
    ensures Fold(xs[..i], step).postIds <= Fold(xs, step).postIds
    ensures Fold(xs[..i], step).crashed ==> Fold(xs, step) == Fold(xs[..i], step)
    decreases |xs| - i
  {
    if i < |xs| {
      var ys := xs[..|xs| - 1];
      assert ys[..i] == xs[..i];
      FoldPrefix(ys, step, i);
    } else {
      assert xs[..i] == xs;
    }
  }

  lemma {:induction false} CommentsAt(postIds: seq<Option<string>>, token: string, k: nat)
    requires k < |postIds|
    ensures Comments(postIds, token)[k] == CommentOnPost(postIds[k], token)
    decreases |postIds|
  {
    if k < |postIds| - 1 {
      CommentsAt(postIds[..|postIds| - 1], token, k);
    }
  }

  lemma {:induction false} CommentsAppend(a: seq<Option<string>>, b: seq<Option<string>>, token: string)
    ensures Comments(a + b, token) == Comments(a, token) + Comments(b, token)
    decreases |b|
  {
    if b != [] {
      var b' := b[..|b| - 1];
      assert (a + b)[..|a + b| - 1] == a + b';
      CommentsAppend(a, b', token);
    } else {
      assert a + b == a;
    }
  }

  lemma CommentsPrefix(a: seq<Option<string>>, b: seq<Option<string>>, token: string)
    requires a <= b
    ensures Comments(a, token) <= Comments(b, token)
  {
    assert b == a + b[|a|..];
    CommentsAppend(a, b[|a|..], token);
  }

  /** A request sequence that already ends in a rejection is cut the same way
      inside any extension of it. */
  lemma IssuedOfExtension(p: seq<Request>, q: seq<Request>, rejectAt: Option<nat>)
    requires p <= q && Rejects(|p|, rejectAt)
    ensures Rejects(|q|, rejectAt) && p[..Issued(|p|, rejectAt)] == q[..Issued(|q|, rejectAt)]
  {
  }

  /** `trace` and `failed` are what sending `planned` in order gives when
      request `rejectAt` rejects and the walk behind `planned` ends in a crash
      or not: the requests up to the first rejection, and failure exactly
      when a request rejected or the walk crashed. */
  predicate Sends(trace: seq<Request>, failed: bool, planned: seq<Request>, crashed: bool, rejectAt: Option<nat>) {
    && trace == planned[..Issued(|planned|, rejectAt)]
    && failed == (Rejects(|planned|, rejectAt) || crashed)
  }

  /** The planned requests of a walk, after `trace0`. */
  function PlannedAfter(trace0: seq<Request>, w: Walk, token: string): seq<Request> {
    trace0 + Comments(w.postIds, token)
  }

  /** Stopping at the crash of element `i` of `xs` leaves what the whole walk sends. */
  lemma CrashAt<T>(xs: seq<T>, step: T -> Walk, i: nat, trace0: seq<Request>, trace: seq<Request>,
                   token: string, rejectAt: Option<nat>)
    requires i < |xs| && !Fold(xs[..i], step).crashed && step(xs[i]) == Walk([], true)
    requires trace == PlannedAfter(trace0, Fold(xs[..i], step), token)
    requires rejectAt.Some? ==> rejectAt.value >= |trace|
    ensures Sends(trace, true, PlannedAfter(trace0, Fold(xs, step), token), Fold(xs, step).crashed, rejectAt)
  {
    assert Fold(xs, step).crashed && Fold(xs, step).postIds == Fold(xs[..i], step).postIds by {
      StepAt(xs, step, i);
      FoldPrefix(xs, step, i + 1);
    }
    var planned := PlannedAfter(trace0, Fold(xs, step), token);
    assert planned == trace;
    assert Issued(|planned|, rejectAt) == |planned|;
    assert trace == planned[..Issued(|planned|, rejectAt)];
  }

  /** The walk of the first `i + 1` elements, once the `i`th has been walked. */
  lemma StepAt<T>(xs: seq<T>, step: T -> Walk, i: nat)
    requires i < |xs| && !Fold(xs[..i], step).crashed
    ensures Fold(xs[..i + 1], step) == Then(Fold(xs[..i], step), step(xs[i]))
  {
    assert xs[..i + 1][..i] == xs[..i];
  }

  /** A rejection while sending the requests of the first `i` elements is
      where the whole walk's sending ends. */
  lemma RejectedWithin<T>(xs: seq<T>, step: T -> Walk, i: nat, trace0: seq<Request>, trace: seq<Request>,
                          token: string, rejectAt: Option<nat>)
    requires i <= |xs|
    requires var here := PlannedAfter(trace0, Fold(xs[..i], step), token);
             Rejects(|here|, rejectAt) && trace == here[..Issued(|here|, rejectAt)]
    ensures Sends(trace, true, PlannedAfter(trace0, Fold(xs, step), token), Fold(xs, step).crashed, rejectAt)
  {
    FoldPrefix(xs, step, i);
    CommentsPrefix(Fold(xs[..i], step).postIds, Fold(xs, step).postIds, token);
    IssuedOfExtension(PlannedAfter(trace0, Fold(xs[..i], step), token), PlannedAfter(trace0, Fold(xs, step), token), rejectAt);
  }

  /** Extending the walked prefix by one element whose requests all went out. */
  lemma SentThrough<T>(xs: seq<T>, step: T -> Walk, i: nat, trace0: seq<Request>, trace: seq<Request>,
                       sent: seq<Request>, token: string)
    requires i < |xs| && !Fold(xs[..i], step).crashed
    requires trace == PlannedAfter(trace0, Fold(xs[..i], step), token)
    requires sent == PlannedAfter(trace, step(xs[i]), token)
    ensures sent == PlannedAfter(trace0, Fold(xs[..i + 1], step), token)
    ensures Fold(xs[..i + 1], step).crashed == step(xs[i]).crashed
  {
    StepAt(xs, step, i);
    CommentsAppend(Fold(xs[..i], step).postIds, step(xs[i]).postIds, token);
  }

  /** The body of the loop over one entry's changes, after `trace0` has been sent. */
  method CommentOnChange(change: Change, token: string, trace0: seq<Request>, rejectAt: Option<nat>)
    returns (trace: seq<Request>, failed: bool)
    requires rejectAt.Some? ==> rejectAt.value >= |trace0|
    ensures Sends(trace, failed, PlannedAfter(trace0, ChangeStep(change), token), ChangeStep(change).crashed, rejectAt)
  {
    trace := trace0;
    if change.field == "feed" && change.value.None? {
      // `change.value.item` on undefined throws
      assert Comments([], token) == [];
      return trace, true;
    }
    if change.field == "feed" && change.value.value.item == Some("post") {
      trace := trace + [CommentOnPost(change.value.value.postId, token)];
      assert Comments([change.value.value.postId], token) == [CommentOnPost(change.value.value.postId, token)];
      failed := rejectAt == Some(|trace| - 1);
    } else {
      assert Comments([], token) == [];
      failed := false;
    }
  }

  /** The loop over one entry's changes, after `trace0` has been sent. */
  method CommentOnChanges(changes: seq<Change>, token: string, trace0: seq<Request>, rejectAt: Option<nat>)
    returns (trace: seq<Request>, failed: bool)
    requires rejectAt.Some? ==> rejectAt.value >= |trace0|
    ensures Sends(trace, failed, PlannedAfter(trace0, Fold(changes, ChangeStep), token),
                  Fold(changes, ChangeStep).crashed, rejectAt)
  {
    trace := trace0;
    var j := 0;
    while j < |changes|
      invariant 0 <= j <= |changes|
      invariant !Fold(changes[..j], ChangeStep).crashed
      invariant trace == PlannedAfter(trace0, Fold(changes[..j], ChangeStep), token)
      invariant rejectAt.Some? ==> rejectAt.value >= |trace|
    {
      var sent;
      sent, failed := CommentOnChange(changes[j], token, trace, rejectAt);
      StepDone(changes, ChangeStep, j, trace0, trace, sent, failed, token, rejectAt);
      if failed {
        return sent, true;
      }
      trace := sent;
      j := j + 1;
    }
    assert changes[..j] == changes;
    failed := false;
  }

  /** The loop over the entries (route.ts:33-50), after `trace0` has been sent. */
  method CommentOnEntries(entries: seq<Entry>, token: string, trace0: seq<Request>, rejectAt: Option<nat>)
    returns (trace: seq<Request>, failed: bool)
    requires rejectAt.Some? ==> rejectAt.value >= |trace0|
    ensures Sends(trace, failed, PlannedAfter(trace0, Fold(entries, EntryStep), token),
                  Fold(entries, EntryStep).crashed, rejectAt)
  {
    trace := trace0;
    var i := 0;
    while i < |entries|
      invariant 0 <= i <= |entries|
      invariant !Fold(entries[..i], EntryStep).crashed
      invariant trace == PlannedAfter(trace0, Fold(entries[..i], EntryStep), token)
      invariant rejectAt.Some? ==> rejectAt.value >= |trace|
    {
      if entries[i].changes.None? {
        // `for (const change of entry.changes)` on undefined throws
        CrashAt(entries, EntryStep, i, trace0, trace, token, rejectAt);
        return trace, true;
      }
      var sent;
      sent, failed := CommentOnChanges(entries[i].changes.value, token, trace, rejectAt);
      StepDone(entries, EntryStep, i, trace0, trace, sent, failed, token, rejectAt);
      if failed {
        return sent, true;
      }
      trace := sent;
      i := i + 1;
    }
    assert entries[..i] == entries;
    failed := false;
  }

  /** What a loop over `xs` knows once the requests of element `i` were sent:
      either the whole walk's sending is over, or the next element is due. */
  lemma StepDone<T>(xs: seq<T>, step: T -> Walk, i: nat, trace0: seq<Request>, trace: seq<Request>,
                 sent: seq<Request>, failed: bool, token: string, rejectAt: Option<nat>)
    requires i < |xs| && !Fold(xs[..i], step).crashed
    requires trace == PlannedAfter(trace0, Fold(xs[..i], step), token)
    requires rejectAt.Some? ==> rejectAt.value >= |trace|
    requires Sends(sent, failed, PlannedAfter(trace, step(xs[i]), token), step(xs[i]).crashed, rejectAt)
    ensures failed ==> Sends(sent, true, PlannedAfter(trace0, Fold(xs, step), token),
                             Fold(xs, step).crashed, rejectAt)
    ensures !failed ==> && !Fold(xs[..i + 1], step).crashed
                        && sent == PlannedAfter(trace0, Fold(xs[..i + 1], step), token)
                        && (rejectAt.Some? ==> rejectAt.value >= |sent|)
  {
    var here := PlannedAfter(trace, step(xs[i]), token);
    assert here == PlannedAfter(trace0, Fold(xs[..i + 1], step), token)
           && Fold(xs[..i + 1], step).crashed == step(xs[i]).crashed by {
      SentThrough(xs, step, i, trace0, trace, here, token);
    }
    if Rejects(|here|, rejectAt) {
      RejectedWithin(xs, step, i + 1, trace0, sent, token, rejectAt);
    } else if failed {
      assert Fold(xs, step) == Fold(xs[..i + 1], step) by {
        FoldPrefix(xs, step, i + 1);
      }
    }
  }

  /** Walking a non-empty sequence is walking its first element, then the rest. */
  lemma {:induction false} FoldFront<T>(xs: seq<T>, step: T -> Walk)
    requires |xs| > 0
    ensures Fold(xs, step) == Then(step(xs[0]), Fold(xs[1..], step))
    decreases |xs|
  {
    var last := step(xs[|xs| - 1]);
    if |xs| == 1 {
      assert xs[..0] == [] && xs[1..] == [];
      assert [] + last.postIds == last.postIds + [];
    } else {
      var init := xs[..|xs| - 1];
      FoldFront(init, step);
      assert init[1..] == xs[1..][..|xs[1..]| - 1];
      ThenAssoc(step(xs[0]), Fold(init[1..], step), last);
    }
  }

  /** A change the handler cannot read: a `feed` change without a `value`. */
  predicate Unreadable(c: Change) {
    c.field == "feed" && c.value.None?
  }

  /** An entry the handler cannot walk: it has no `changes`, or one of them is unreadable. */
  predicate EntryUnreadable(e: Entry) {
    e.changes.None? || exists k :: 0 <= k < |e.changes.value| && Unreadable(e.changes.value[k])
  }

  /** The post ids of the `feed` changes whose `item` is `post`, front to back. */
  function FeedPosts(cs: seq<Change>): seq<Option<string>> {
    if cs == [] then []
    else
      var c := cs[0];
      (if c.field == "feed" && c.value.Some? && c.value.value.item == Some("post") then [c.value.value.postId] else [])
      + FeedPosts(cs[1..])
  }

  /** The post ids of the `feed`/`post` changes of all entries, in order. */
  function EntriesFeedPosts(es: seq<Entry>): seq<Option<string>> {
    if es == [] then []
    else (if es[0].changes.Some? then FeedPosts(es[0].changes.value) else []) + EntriesFeedPosts(es[1..])
  }

  /** The walk over an entry's changes stops exactly when one of them is
      unreadable; otherwise it comments on the post of every `feed` change
      whose `item` is `post`, in order. */
  lemma {:induction false} ChangesWalk(cs: seq<Change>)
    ensures Fold(cs, ChangeStep).crashed <==> exists k :: 0 <= k < |cs| && Unreadable(cs[k])
    ensures !Fold(cs, ChangeStep).crashed ==> Fold(cs, ChangeStep).postIds == FeedPosts(cs)
    decreases |cs|
  {
    if cs != [] {
      FoldFront(cs, ChangeStep);
      ChangesWalk(cs[1..]);
      if exists k :: 0 <= k < |cs| && Unreadable(cs[k]) {
        var k :| 0 <= k < |cs| && Unreadable(cs[k]);
        if k > 0 {
          assert Unreadable(cs[1..][k - 1]);
        }
      }
      if exists k :: 0 <= k < |cs| - 1 && Unreadable(cs[1..][k]) {
        var k :| 0 <= k < |cs| - 1 && Unreadable(cs[1..][k]);
        assert Unreadable(cs[k + 1]);
      }
    }
  }

  /** The walk over the entries stops exactly when one of them is unreadable;
      otherwise it comments on the post of every `feed`/`post` change of
      every entry, in order. */
  lemma {:induction false} EntriesWalk(es: seq<Entry>)
    ensures Fold(es, EntryStep).crashed <==> exists i :: 0 <= i < |es| && EntryUnreadable(es[i])
    ensures !Fold(es, EntryStep).crashed ==> Fold(es, EntryStep).postIds == EntriesFeedPosts(es)
    decreases |es|
  {
    if es != [] {
      FoldFront(es, EntryStep);
      EntriesWalk(es[1..]);
      if es[0].changes.Some? {
        ChangesWalk(es[0].changes.value);
      }
      if exists i :: 0 <= i < |es| && EntryUnreadable(es[i]) {
        var i :| 0 <= i < |es| && EntryUnreadable(es[i]);
        if i > 0 {
          assert EntryUnreadable(es[1..][i - 1]);
        }
      }
      if exists i :: 0 <= i < |es| - 1 && EntryUnreadable(es[1..][i]) {
        var i :| 0 <= i < |es| - 1 && EntryUnreadable(es[1..][i]);
        assert EntryUnreadable(es[i + 1]);
      }
    }
  }

  /** For a page event the handler fails on exactly the unreadable entries,
      and otherwise plans the Slack message and then one comment per `feed`
      change whose `item` is `post`, in the order of the entries and their changes. */
  lemma PlannedReference(ev: Event, json: string, slackUrl: string, token: string)
    ensures CommentWalk(ev).crashed <==>
              ev.obj == Some("page") && ev.entry.Some? && exists i :: 0 <= i < |ev.entry.value| && EntryUnreadable(ev.entry.value[i])
    ensures !CommentWalk(ev).crashed ==>
              Planned(ev, json, slackUrl, token)
              == [NotifySlack(slackUrl, json)]
                 + Comments(if ev.obj == Some("page") && ev.entry.Some? then EntriesFeedPosts(ev.entry.value) else [], token)
  {
    if ev.obj == Some("page") && ev.entry.Some? {
      EntriesWalk(ev.entry.value);
    }
  }

  /** POST /api/webhook. `rejectAt` is the position of the first outbound
      request whose promise rejects. */
  method HandlePost(body: Body, slackUrl: Option<string>, pageToken: Option<string>,
                    rejectAt: Option<nat>)
    returns (response: Response, trace: seq<Request>)
    // the body is parsed before the configuration is looked at
    ensures body.Malformed? ==> response == ProcessingFailed && trace == []
    ensures !body.Malformed? && !Configured(slackUrl, pageToken) ==> response == MissingConfig && trace == []
    ensures body.Null? && Configured(slackUrl, pageToken) ==> response == ProcessingFailed && trace == []
    // otherwise the requests are the planned ones up to the first rejection;
    // the reply is 200 only when nothing rejected and the walk did not crash
    ensures body.Parsed? && Configured(slackUrl, pageToken) ==>
              var planned := Planned(body.event, body.json, slackUrl.value, pageToken.value);
              && trace == planned[..Issued(|planned|, rejectAt)]
              && response == if Rejects(|planned|, rejectAt) || CommentWalk(body.event).crashed
                             then ProcessingFailed else Accepted
    // the first request is the single Slack message, and every later one a comment
    ensures body.Parsed? && Configured(slackUrl, pageToken) ==>
              && |trace| >= 1
              && trace[0] == NotifySlack(slackUrl.value, body.json)
              && forall k :: 1 <= k < |trace| ==> trace[k].CommentOnPost? && trace[k].accessToken == pageToken.value
    ensures body.Parsed? && !(body.event.obj == Some("page") && body.event.entry.Some?) ==> |trace| <= 1
  {
    trace := [];
    if body.Malformed? {
      return ProcessingFailed, trace;
    }
    if !Truthy(slackUrl) || !Truthy(pageToken) {
      return MissingConfig, trace;
    }
    if body.Null? {
      // `event.object` on null throws
      return ProcessingFailed, trace;
    }
    var event := body.event;
    var token := pageToken.value;
    trace := [NotifySlack(slackUrl.value, body.json)];
    if rejectAt == Some(0) {
      return ProcessingFailed, trace;
    }
    var failed := false;
    if event.obj == Some("page") && event.entry.Some? {
      trace, failed := CommentOnEntries(event.entry.value, token, trace, rejectAt);
    }
    response := if failed then ProcessingFailed else Accepted;
    PlannedAt(event, body.json, slackUrl.value, token);
  }
}
