/** The content script: one title reconciler per page. It keeps the page's
    `document.title` equal to `prefix + baseline + suffix`, and decides on every
    title mutation whether to re-apply the decoration, adopt a new baseline, or
    leave the title alone. */
module Content {
  import opened Js
  import opened Messages

  /** The script's `state` record together with the page's `document.title`.
      `observing` says that `state.observer` is set. `titleWrites` counts the
      assignments made to `document.title` so far: each one makes the browser
      queue a mutation record, so "no write" means "no new notification". */
  datatype Page = Page(
    title: string,
    prefix: string,
    suffix: string,
    originalTitle: Option<string>,
    actualOriginalTitle: Option<string>,
    observing: bool,
    titleWrites: nat)

  /** The state right after the script is loaded into a page titled `title`:
      no decoration, no baseline, no observer, nothing written yet. */
  function Loaded(title: string): (r: Page)
    ensures Consistent(r)
    ensures r.title == title && r.titleWrites == 0
    ensures r.prefix == r.suffix == "" && r.actualOriginalTitle.None? && !r.observing
  {
    Page(title, "", "", None, None, false, 0)
  }

  /** What every operation of the script keeps: both baseline fields are set
      together; a non-empty baseline is also the observer's reference title;
      an observer exists only once a baseline has been taken. */
  predicate Consistent(p: Page)
  {
    && (p.originalTitle.Some? <==> p.actualOriginalTitle.Some?)
    && (Truthy(p.actualOriginalTitle) ==> p.originalTitle == p.actualOriginalTitle)
    && (p.observing ==> p.actualOriginalTitle.Some?)
  }

  /** `prefix + body + suffix` under the page's current settings. */
  function Decorate(p: Page, body: string): string
  {
    p.prefix + body + p.suffix
  }

  /** `captureOriginalTitle`: the first call fixes both baseline fields to the
      current title; every later call changes nothing. */
  function Captured(p: Page): (r: Page)
    ensures r.actualOriginalTitle.Some?
    ensures p.actualOriginalTitle.Some? ==> r == p
    ensures p.actualOriginalTitle.None? ==> r.actualOriginalTitle == r.originalTitle == Some(p.title)
    ensures r.title == p.title && r.titleWrites == p.titleWrites
    ensures r.prefix == p.prefix && r.suffix == p.suffix && r.observing == p.observing
    ensures Consistent(p) ==> Consistent(r)
  {
    if p.actualOriginalTitle == None then
      p.(actualOriginalTitle := Some(p.title), originalTitle := Some(p.title))
    else
      p
  }

  /** `getCleanTitle`: `actualOriginalTitle || document.title`. An empty
      baseline is falsy, so it falls back to the current title, which may
      already carry the decoration. */
  function CleanTitle(p: Page): (r: string)
    ensures Truthy(p.actualOriginalTitle) ==> r == p.actualOriginalTitle.value
    ensures !Truthy(p.actualOriginalTitle) ==> r == p.title
  {
    Or(p.actualOriginalTitle, p.title)
  }

  /** `updateTitle`: capture a baseline if there is none, write
      `prefix + clean + suffix` unless the title already equals it, and make
      the clean title the observer's reference. */
  function Updated(p: Page): (r: Page)
    ensures var body := Or(p.actualOriginalTitle, p.title);
      r.title == Decorate(p, body) && r.originalTitle == Some(body)
    ensures r.actualOriginalTitle == Captured(p).actualOriginalTitle
    ensures r.titleWrites == if r.title == p.title then p.titleWrites else p.titleWrites + 1
    ensures r.prefix == p.prefix && r.suffix == p.suffix && r.observing == p.observing
    ensures Consistent(r)
  {
    var captured := Captured(p);
    var clean := CleanTitle(captured);
    var newTitle := captured.prefix + clean + captured.suffix;
    var written :=
      if captured.title != newTitle then
        captured.(title := newTitle, titleWrites := captured.titleWrites + 1)
      else
        captured;
    written.(originalTitle := Some(clean))
  }

  /** The observer's decision on a title mutation. */
  datatype Reaction =
    | Settled   // the title is the one the script expects
    | Reapply   // the page reset the title to the bare baseline
    | Adopt     // a new title carrying neither the prefix nor the suffix
    | Ignore    // anything else: taken to be the script's own decoration

  /** The branch the mutation-observer callback takes. Since every string
      starts and ends with "", a new title is adopted only when both the
      prefix and the suffix are non-empty. */
  function Classify(p: Page): (r: Reaction)
    ensures r == Settled <==> p.title == Decorate(p, ToStr(p.originalTitle))
    ensures r == Reapply ==> p.actualOriginalTitle == Some(p.title)
    ensures r == Adopt ==> p.prefix != "" && p.suffix != ""
    ensures r == Adopt ==> p.actualOriginalTitle != Some(p.title)
  {
    if p.title == Decorate(p, ToStr(p.originalTitle)) then Settled
    else if Some(p.title) == p.actualOriginalTitle then Reapply
    else if !StartsWith(p.title, p.prefix) && !EndsWith(p.title, p.suffix) then Adopt
    else Ignore
  }

  /** The mutation-observer callback body. */
  function Observed(p: Page): (r: Page)
    ensures Classify(p) == Settled || Classify(p) == Ignore ==> r == p
    ensures Classify(p) == Reapply ==>
      r.title == Decorate(p, p.title) && r.actualOriginalTitle == p.actualOriginalTitle
    ensures Classify(p) == Adopt ==>
      r.title == Decorate(p, p.title) && r.actualOriginalTitle == r.originalTitle == Some(p.title)
    ensures Classify(p) == Reapply ==>
      r.titleWrites == if p.prefix == "" && p.suffix == "" then p.titleWrites else p.titleWrites + 1
    ensures Classify(p) == Adopt ==> r.titleWrites == p.titleWrites + 1
    ensures p.prefix == "" || p.suffix == "" ==> r.actualOriginalTitle == p.actualOriginalTitle
    ensures r.prefix == p.prefix && r.suffix == p.suffix && r.observing == p.observing
    ensures Consistent(p) ==> Consistent(r)
  {
    match Classify(p)
    case Settled => p
    case Reapply => Updated(p)
    case Adopt => Updated(p.(actualOriginalTitle := Some(p.title), originalTitle := Some(p.title)))
    case Ignore => p
  }

  /** The `updateTitle` message handler: capture, take the message's prefix
      and suffix (`|| ''`), update the title, and make sure an observer exists. */
  function AfterUpdateMessage(p: Page, msgPrefix: Option<string>, msgSuffix: Option<string>): (r: Page)
    ensures r.prefix == Or(msgPrefix, "") && r.suffix == Or(msgSuffix, "")
    ensures r.title == Decorate(r, Or(p.actualOriginalTitle, p.title))
    ensures r.actualOriginalTitle == Captured(p).actualOriginalTitle
    ensures r.observing && Consistent(r)
    ensures Classify(r) == Settled
  {
    var captured := Captured(p).(prefix := Or(msgPrefix, ""), suffix := Or(msgSuffix, ""));
    Updated(captured).(observing := true)
  }

  /** The callback of the `contentScriptReady` message: with a reply, capture
      and take the reply's settings (`|| ''`); touch the title and set up an
      observer only when the prefix or the suffix is non-empty. */
  function AfterReady(p: Page, reply: Option<Settings>): (r: Page)
    ensures reply.None? ==> r == p
    ensures reply.Some? ==>
      && r.prefix == Or(reply.value.prefix, "") && r.suffix == Or(reply.value.suffix, "")
      && r.actualOriginalTitle == Captured(p).actualOriginalTitle
    ensures r.prefix == "" && r.suffix == "" ==>
      r.title == p.title && r.titleWrites == p.titleWrites && r.observing == p.observing
    ensures reply.Some? && (r.prefix != "" || r.suffix != "") ==>
      r.observing && r.title == Decorate(r, Or(p.actualOriginalTitle, p.title))
    ensures Consistent(p) ==> Consistent(r)
  {
    match reply
    case None => p
    case Some(settings) =>
      var captured := Captured(p).(prefix := Or(settings.prefix, ""), suffix := Or(settings.suffix, ""));
      if captured.prefix != "" || captured.suffix != "" then
        Updated(captured).(observing := true)
      else
        captured
  }

  /** The page's own script assigns `document.title := t`. */
  function PageRetitled(p: Page, t: string): (r: Page)
    ensures r.title == t && r.titleWrites == p.titleWrites + 1
    ensures r.(title := p.title, titleWrites := p.titleWrites) == p
    ensures Consistent(p) ==> Consistent(r)
  {
    p.(title := t, titleWrites := p.titleWrites + 1)
  }

  // ----- Properties of the reconciler -----

  /** A second `updateTitle` with nothing in between changes nothing, and in
      particular writes nothing, exactly when the baseline is non-empty or
      there is no decoration at all. With an empty baseline and some
      decoration the title grows on every call. */
  lemma UpdateIdempotentIff(p: Page)
    ensures Updated(Updated(p)) == Updated(p) <==>
      Truthy(Captured(p).actualOriginalTitle) || (p.prefix == "" && p.suffix == "")
  {
  }

  /** After `updateTitle` the observer's expected title is the current title,
      so the next observer callback does nothing. */
  lemma ObserverQuietAfterUpdate(p: Page)
    ensures Classify(Updated(p)) == Settled
    ensures Observed(Updated(p)) == Updated(p)
  {
  }

  /** A second run of the callback on the state the first one left does
      nothing: the observer settles after one reaction. */
  lemma ObserverIdempotent(p: Page)
    ensures Observed(Observed(p)) == Observed(p)
  {
  }

  /** When the page resets its title to the recorded baseline, the observer
      writes `prefix + baseline + suffix` and keeps the baseline. */
  lemma ObserverRestoresBaseline(p: Page)
    requires Consistent(p)
    requires p.actualOriginalTitle == Some(p.title)
    ensures Observed(p).title == Decorate(p, p.actualOriginalTitle.value)
    ensures Observed(p).actualOriginalTitle == p.actualOriginalTitle
  {
  }

  /** A title that neither starts with the prefix nor ends with the suffix and
      is not the baseline becomes the new baseline and is decorated. */
  lemma ObserverAdoptsForeignTitle(p: Page)
    requires !StartsWith(p.title, p.prefix) && !EndsWith(p.title, p.suffix)
    requires p.actualOriginalTitle != Some(p.title)
    ensures Observed(p).actualOriginalTitle == Observed(p).originalTitle == Some(p.title)
    ensures Observed(p).title == Decorate(p, p.title)
  {
  }

  /** A title that is not the baseline but starts with the prefix or ends with
      the suffix is left alone, state included. With an empty prefix or an
      empty suffix this covers every title other than the baseline. */
  lemma ObserverLeavesDecoratedTitle(p: Page)
    requires StartsWith(p.title, p.prefix) || EndsWith(p.title, p.suffix)
    requires p.actualOriginalTitle != Some(p.title)
    ensures Observed(p) == p
  {
  }

  /** `n` successive `updateTitle` messages carrying the same settings. */
  function Repushed(p: Page, s: Settings, n: nat): Page
  {
    if n == 0 then p else AfterUpdateMessage(Repushed(p, s, n - 1), s.prefix, s.suffix)
  }

  /** `s` written `n` times. */
  function Repeat(s: string, n: nat): string
  {
    if n == 0 then "" else s + Repeat(s, n - 1)
  }

  lemma {:induction false} RepeatAppend(s: string, n: nat)
    ensures Repeat(s, n) + s == Repeat(s, n + 1)
  {
    if n > 0 {
      RepeatAppend(s, n - 1);
      assert Repeat(s, n) + s == s + (Repeat(s, n - 1) + s);
    }
  }

  /** One push onto a page whose baseline is empty wraps the current title. */
  lemma PushOnEmptyBaseline(p: Page, s: Settings)
    requires Captured(p).actualOriginalTitle == Some("")
    ensures Captured(AfterUpdateMessage(p, s.prefix, s.suffix)).actualOriginalTitle == Some("")
    ensures AfterUpdateMessage(p, s.prefix, s.suffix).title == Or(s.prefix, "") + p.title + Or(s.suffix, "")
    ensures Or(s.prefix, "") != "" || Or(s.suffix, "") != "" ==>
      AfterUpdateMessage(p, s.prefix, s.suffix).titleWrites == p.titleWrites + 1
  {
  }

  /** Wrapping `prefix^n + t + suffix^n` once more gives `prefix^(n+1) + t + suffix^(n+1)`. */
  lemma WrapRepeated(pre: string, suf: string, t: string, n: nat)
    ensures pre + (Repeat(pre, n) + t + Repeat(suf, n)) + suf == Repeat(pre, n + 1) + t + Repeat(suf, n + 1)
  {
    RepeatAppend(suf, n);
    var a, b := Repeat(pre, n), Repeat(suf, n);
    assert pre + (a + t + b) + suf == (pre + a) + t + (b + suf);
  }

  /** An empty baseline stays empty through any number of pushes. */
  lemma {:induction false} EmptyBaselineKept(p: Page, s: Settings, n: nat)
    requires Captured(p).actualOriginalTitle == Some("")
    ensures Captured(Repushed(p, s, n)).actualOriginalTitle == Some("")
  {
    if n > 0 {
      EmptyBaselineKept(p, s, n - 1);
      PushOnEmptyBaseline(Repushed(p, s, n - 1), s);
    }
  }

  /** With an empty baseline every repeated push wraps the title once more:
      after `n` pushes it is `prefix^n + title + suffix^n`. */
  lemma {:induction false} EmptyBaselineGrows(p: Page, s: Settings, n: nat)
    requires Captured(p).actualOriginalTitle == Some("")
    ensures Repushed(p, s, n).title ==
      Repeat(Or(s.prefix, ""), n) + p.title + Repeat(Or(s.suffix, ""), n)
  {
    if n > 0 {
      var pre, suf := Or(s.prefix, ""), Or(s.suffix, "");
      var before := Repushed(p, s, n - 1);
      calc {
        Repushed(p, s, n).title;
        AfterUpdateMessage(before, s.prefix, s.suffix).title;
        { EmptyBaselineKept(p, s, n - 1); PushOnEmptyBaseline(before, s); }
        pre + before.title + suf;
        { EmptyBaselineGrows(p, s, n - 1); }
        pre + (Repeat(pre, n - 1) + p.title + Repeat(suf, n - 1)) + suf;
        { WrapRepeated(pre, suf, p.title, n - 1); }
        Repeat(pre, n) + p.title + Repeat(suf, n);
      }
    }
  }

  /** With an empty baseline and a non-empty decoration every push writes
      the title again. */
  lemma {:induction false} EmptyBaselineRewrites(p: Page, s: Settings, n: nat)
    requires Captured(p).actualOriginalTitle == Some("")
    requires Or(s.prefix, "") != "" || Or(s.suffix, "") != ""
    ensures Repushed(p, s, n).titleWrites == p.titleWrites + n
  {
    if n > 0 {
      EmptyBaselineRewrites(p, s, n - 1);
      EmptyBaselineKept(p, s, n - 1);
      PushOnEmptyBaseline(Repushed(p, s, n - 1), s);
    }
  }

  /** With a non-empty baseline a repeated push of the same settings changes
      nothing after the first. */
  lemma {:induction false} NonEmptyBaselineStable(p: Page, s: Settings, n: nat)
    requires Truthy(Captured(p).actualOriginalTitle)
    requires n >= 1
    ensures Repushed(p, s, n) == Repushed(p, s, 1)
  {
    if n > 1 {
      NonEmptyBaselineStable(p, s, n - 1);
      var once := Repushed(p, s, 1);
      assert once.originalTitle == Captured(p).actualOriginalTitle;
    }
  }

  /** Clearing both settings returns a page with a non-empty baseline to that
      baseline. */
  lemma ClearedSettingsRestoreBaseline(p: Page, s: Settings)
    requires !Truthy(s.prefix) && !Truthy(s.suffix)
    requires Truthy(Captured(p).actualOriginalTitle)
    ensures AfterUpdateMessage(p, s.prefix, s.suffix).title == Captured(p).actualOriginalTitle.value
  {
  }

  /** Settings `("[Work] ", "")` on a page titled "Inbox (3)": the page becomes
      "[Work] Inbox (3)". When the page then retitles itself "Inbox (4)", the
      observer leaves it undecorated and keeps the old baseline, because with an
      empty suffix every title ends with the suffix. The next push of the same
      settings brings back "[Work] Inbox (3)". */
  lemma WorkInboxScenario()
    ensures var decorated := AfterUpdateMessage(Loaded("Inbox (3)"), Some("[Work] "), Some(""));
      && decorated.title == "[Work] Inbox (3)"
      && var renamed := Observed(PageRetitled(decorated, "Inbox (4)"));
      && renamed.title == "Inbox (4)"
      && renamed.actualOriginalTitle == Some("Inbox (3)")
      && AfterUpdateMessage(renamed, Some("[Work] "), Some("")).title == "[Work] Inbox (3)"
  {
  }

  // ----- Runs of events -----

  /** Something that happens to the page: a message from the background
      script, the reply to `contentScriptReady`, a mutation notification, or
      the page retitling itself. */
  datatype PageEvent =
    | UpdateMessage(msgPrefix: Option<string>, msgSuffix: Option<string>)
    | ReadyReply(reply: Option<Settings>)
    | TitleMutated
    | PageSetTitle(newTitle: string)

  function PageStep(p: Page, e: PageEvent): (r: Page)
    ensures Consistent(p) ==> Consistent(r)
  {
    match e
    case UpdateMessage(msgPrefix, msgSuffix) => AfterUpdateMessage(p, msgPrefix, msgSuffix)
    case ReadyReply(reply) => AfterReady(p, reply)
    case TitleMutated => Observed(p)
    case PageSetTitle(t) => PageRetitled(p, t)
  }

  /** The page after `events`, in order. */
  function PageRun(p: Page, events: seq<PageEvent>): Page
    decreases |events|
  {
    if events == [] then p else PageRun(PageStep(p, events[0]), events[1..])
  }

  /** Every run of events keeps the reconciler's state consistent. */
  lemma {:induction false} RunKeepsConsistent(p: Page, events: seq<PageEvent>)
    requires Consistent(p)
    ensures Consistent(PageRun(p, events))
    decreases |events|
  {
    if events != [] {
      RunKeepsConsistent(PageStep(p, events[0]), events[1..]);
    }
  }

  /** The event leaves the prefix or the suffix empty once normalised. */
  predicate OneSided(e: PageEvent)
  {
    match e
    case UpdateMessage(msgPrefix, msgSuffix) => Or(msgPrefix, "") == "" || Or(msgSuffix, "") == ""
    case ReadyReply(reply) => reply.None? || Or(reply.value.prefix, "") == "" || Or(reply.value.suffix, "") == ""
    case TitleMutated => true
    case PageSetTitle(_) => true
  }

  /** As long as the decoration is only a prefix or only a suffix, the first
      baseline is never replaced, whatever titles the page sets. */
  lemma {:induction false} OneSidedDecorationFreezesBaseline(p: Page, events: seq<PageEvent>)
    requires p.actualOriginalTitle.Some?
    requires p.prefix == "" || p.suffix == ""
    requires forall k :: 0 <= k < |events| ==> OneSided(events[k])
    ensures PageRun(p, events).actualOriginalTitle == p.actualOriginalTitle
    decreases |events|
  {
    if events != [] {
      var next := PageStep(p, events[0]);
      assert next.actualOriginalTitle == p.actualOriginalTitle;
      assert next.prefix == "" || next.suffix == "";
      assert forall k :: 0 <= k < |events[1..]| ==> OneSided(events[1..][k]) by {
        forall k | 0 <= k < |events[1..]| ensures OneSided(events[1..][k]) {
          assert events[1..][k] == events[k + 1];
        }
      }
      OneSidedDecorationFreezesBaseline(next, events[1..]);
    }
  }

  /** The reconciler of one page, with `document.title` as the `title` field. */
  class TitleReconciler {
    var title: string
    var prefix: string
    var suffix: string
    var originalTitle: Option<string>
    var actualOriginalTitle: Option<string>
    var observing: bool
    var titleWrites: nat

    /** The object's state as a value. */
    function Snapshot(): Page
      reads this
    {
      Page(title, prefix, suffix, originalTitle, actualOriginalTitle, observing, titleWrites)
    }

    /** The script is loaded into a page titled `documentTitle`. */
    constructor (documentTitle: string)
      ensures Snapshot() == Loaded(documentTitle)
    {
      title := documentTitle;
      prefix, suffix := "", "";
      originalTitle, actualOriginalTitle := None, None;
      observing := false;
      titleWrites := 0;
    }

    method CaptureOriginalTitle()
      modifies this
      ensures Snapshot() == Captured(old(Snapshot()))
    {
      if actualOriginalTitle == None {
        actualOriginalTitle := Some(title);
        originalTitle := Some(title);
      }
    }

    method UpdateTitle()
      modifies this
      ensures Snapshot() == Updated(old(Snapshot()))
    {
      CaptureOriginalTitle();
      var cleanTitle := CleanTitle(Snapshot());
      var newTitle := prefix + cleanTitle + suffix;
      if title != newTitle {
        title := newTitle;
        titleWrites := titleWrites + 1;
      }
      originalTitle := Some(cleanTitle);
    }

    /** `setupObserver`: (re)connects the observer; only its presence is modelled. */
    method SetupObserver()
      modifies this
      ensures Snapshot() == old(Snapshot()).(observing := true)
    {
      observing := true;
    }

    /** The mutation-observer callback. */
    method OnTitleMutation()
      modifies this
      ensures Snapshot() == Observed(old(Snapshot()))
    {
      var expectedTitle := prefix + ToStr(originalTitle) + suffix;
      if title != expectedTitle {
        if Some(title) == actualOriginalTitle {
          UpdateTitle();
        } else if !StartsWith(title, prefix) && !EndsWith(title, suffix) {
          actualOriginalTitle := Some(title);
          originalTitle := Some(title);
          UpdateTitle();
        }
      }
    }

    /** The `updateTitle` message from the background script. */
    method OnUpdateTitleMessage(msgPrefix: Option<string>, msgSuffix: Option<string>)
      modifies this
      ensures Snapshot() == AfterUpdateMessage(old(Snapshot()), msgPrefix, msgSuffix)
    {
      CaptureOriginalTitle();
      prefix := Or(msgPrefix, "");
      suffix := Or(msgSuffix, "");
      UpdateTitle();
      if !observing {
        SetupObserver();
      }
    }

    /** The background script's reply to `contentScriptReady`; `None` when
        there is no reply or it carries no settings. */
    method OnReadyReply(reply: Option<Settings>)
      modifies this
      ensures Snapshot() == AfterReady(old(Snapshot()), reply)
    {
      if reply.Some? {
        CaptureOriginalTitle();
        prefix := Or(reply.value.prefix, "");
        suffix := Or(reply.value.suffix, "");
        if prefix != "" || suffix != "" {
          UpdateTitle();
          SetupObserver();
        }
      }
    }

    /** The page's own script assigns `document.title`. */
    method PageSetsTitle(t: string)
      modifies this
      ensures Snapshot() == PageRetitled(old(Snapshot()), t)
    {
      title := t;
      titleWrites := titleWrites + 1;
    }
  }
}
