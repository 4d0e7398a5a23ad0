/** POST /v1/bot/events: one read of the bot's queue, then a hold that re-reads until something visible
    arrives or the time is up. The queue holds each event under a score equal to its id, ids are unique
    and published in ascending order. */
module LongPoll {
  import opened Prelude

  const SECOND := 1_000_000_000
  const MAX_EVENT_WAIT_SECONDS := 30
  const EVENT_WAIT_CHUNK := 5 * SECOND
  const PERSON_CHANNEL := 1

  /** A queue member; channelKind is None for an event without a message. */
  datatype Event = Event(id: int, decodable: bool, channelKind: Option<int>)

  predicate Ascending(s: seq<Event>) {
    forall i, j :: 0 <= i < j < |s| ==> s[i].id < s[j].id
  }

  /** The App Bot guard drops every message outside a personal chat. */
  predicate Dropped(appBot: bool, e: Event) {
    appBot && e.channelKind.Some? && e.channelKind.value != 0 && e.channelKind.value != PERSON_CHANNEL
  }

  predicate Shown(appBot: bool, e: Event) {
    e.decodable && !Dropped(appBot, e)
  }

  // ---------------------------------------------------------------------------------- pure helpers

  function ClampEventWait(seconds: int): (wait: int)
    ensures 0 <= wait <= 30 * SECOND
    ensures 0 < seconds <= 30 ==> wait == seconds * SECOND
    ensures 30 < seconds ==> wait == 30 * SECOND
    ensures wait == 0 <==> seconds <= 0
  {
    if seconds <= 0 then 0
    else (if seconds > MAX_EVENT_WAIT_SECONDS then MAX_EVENT_WAIT_SECONDS else seconds) * SECOND
  }

  /** Whole seconds, never 0 while time is left (BLPOP 0 blocks forever), never more than the chunk, and
      otherwise less than a second past the deadline. */
  function EventWaitChunkFor(remaining: int): (chunk: int)
    ensures chunk % SECOND == 0 && 0 <= chunk <= 5 * SECOND
    ensures chunk == 0 <==> remaining <= 0
    ensures 0 < remaining < EVENT_WAIT_CHUNK ==> remaining <= chunk < remaining + SECOND
    ensures EVENT_WAIT_CHUNK <= remaining ==> chunk == EVENT_WAIT_CHUNK
  {
    if remaining <= 0 then 0
    else if remaining >= EVENT_WAIT_CHUNK then EVENT_WAIT_CHUNK
    else (remaining + SECOND - 1) / SECOND * SECOND
  }

  function ClampLimit(requested: int): (limit: nat)
    ensures 1 <= limit <= 100
    ensures 1 <= requested <= 100 ==> limit == requested
    ensures requested <= 0 ==> limit == 20
    ensures 100 < requested ==> limit == 100
  {
    if requested <= 0 then 20 else if requested > 100 then 100 else requested
  }

  // -------------------------------------------------------------------------------- what a page is

  /** The first limit members above the cursor. */
  function PageAt(s: seq<Event>, cursor: int, limit: nat): seq<Event> {
    if s == [] || limit == 0 then []
    else if s[0].id <= cursor then PageAt(s[1..], cursor, limit)
    else [s[0]] + PageAt(s[1..], cursor, limit - 1)
  }

  function Decoded(s: seq<Event>): seq<Event> {
    if s == [] then [] else if s[0].decodable then [s[0]] + Decoded(s[1..]) else Decoded(s[1..])
  }

  function ShownOf(appBot: bool, s: seq<Event>): seq<Event> {
    if s == [] then []
    else if Shown(appBot, s[0]) then [s[0]] + ShownOf(appBot, s[1..]) else ShownOf(appBot, s[1..])
  }

  /** Members with ids in (low, high]. */
  function Between(s: seq<Event>, low: int, high: int): seq<Event> {
    if s == [] then []
    else if low < s[0].id <= high then [s[0]] + Between(s[1..], low, high) else Between(s[1..], low, high)
  }

  /** Where a read leaves the cursor: the greatest decoded id. */
  function NextCursor(page: seq<Event>, cursor: int): int {
    if page == [] then cursor
    else
      var rest := NextCursor(page[..|page| - 1], cursor);
      var last := page[|page| - 1];
      if last.decodable && rest < last.id then last.id else rest
  }

  // --------------------------------------------------------------------------- facts about pages

  lemma {:induction false} NextCursorBounds(page: seq<Event>, cursor: int)
    ensures cursor <= NextCursor(page, cursor)
    ensures forall e :: e in page && e.decodable ==> e.id <= NextCursor(page, cursor)
    ensures NextCursor(page, cursor) == cursor || exists e :: e in page && e.decodable && e.id == NextCursor(page, cursor)
  {
    if page != [] {
      var front, last := page[..|page| - 1], page[|page| - 1];
      NextCursorBounds(front, cursor);
      assert page == front + [last];
    }
  }

  lemma {:induction false} PageMembers(s: seq<Event>, cursor: int, limit: nat)
    requires Ascending(s)
    ensures var page := PageAt(s, cursor, limit);
            && |page| <= limit && Ascending(page)
            && forall e :: e in page ==> e in s && cursor < e.id
  {
    if s != [] && limit > 0 {
      PageMembers(s[1..], cursor, if s[0].id <= cursor then limit else limit - 1);
      if s[0].id > cursor {
        var rest := PageAt(s[1..], cursor, limit - 1);
        forall i | 0 <= i < |rest| ensures s[0].id < rest[i].id {
          assert rest[i] in s[1..];
        }
      }
    }
  }

  /** A page is the first members above the cursor, as many as there are up to the limit. */
  lemma {:induction false} PageIsFull(s: seq<Event>, cursor: int, limit: nat) returns (k: nat, n: nat)
    requires Ascending(s)
    ensures k + n <= |s| && PageAt(s, cursor, limit) == s[k..k + n]
    ensures (forall i :: 0 <= i < k ==> s[i].id <= cursor) && (forall i :: k <= i < |s| ==> cursor < s[i].id)
    ensures n == if limit < |s| - k then limit else |s| - k
  {
    if s == [] {
      k, n := 0, 0;
    } else if s[0].id <= cursor {
      k, n := PageIsFull(s[1..], cursor, limit);
      assert forall i :: 1 <= i < |s| ==> s[1..][i - 1] == s[i];
      if limit > 0 {
        assert s[1..][k..k + n] == s[k + 1..k + 1 + n];
      }
      k := k + 1;
    } else {
      k, n := 0, if limit < |s| then limit else |s|;
      PageOfNewer(s, cursor, limit);
    }
  }

  lemma {:induction false} PageOfNewer(s: seq<Event>, cursor: int, limit: nat)
    requires forall i :: 0 <= i < |s| ==> cursor < s[i].id
    ensures PageAt(s, cursor, limit) == s[..if limit < |s| then limit else |s|]
  {
    if s != [] && limit > 0 {
      PageOfNewer(s[1..], cursor, limit - 1);
      var n := if limit < |s| then limit else |s|;
      assert s[..n] == [s[0]] + s[1..][..n - 1];
    }
  }

  /** What may be shown: to an App Bot, decodable events without a message or from a personal chat; to
      any other bot, everything decodable. */
  lemma {:induction false} ShownMembers(appBot: bool, s: seq<Event>)
    ensures forall e :: e in ShownOf(appBot, s) <==>
              e in s && e.decodable && (appBot ==> e.channelKind in {None, Some(0), Some(1)})
  {
    if s != [] {
      ShownMembers(appBot, s[1..]);
      assert forall e :: e in s <==> e == s[0] || e in s[1..];
    }
  }

  /** A page leaves nothing out: up to any of its ids it holds every member above the cursor. */
  lemma {:induction false} PageIsGapless(s: seq<Event>, cursor: int, limit: nat, high: int)
    requires Ascending(s)
    requires high <= cursor || exists e :: e in PageAt(s, cursor, limit) && e.id == high
    ensures Between(s, cursor, high) == Between(PageAt(s, cursor, limit), cursor, high)
  {
    if s != [] {
      var rest := s[1..];
      if high <= cursor {
        NothingBetween(s, cursor, high);
        NothingBetween(PageAt(s, cursor, limit), cursor, high);
      } else if s[0].id <= cursor {
        PageIsGapless(rest, cursor, limit, high);
      } else {
        var page := PageAt(rest, cursor, limit - 1);
        PageMembers(rest, cursor, limit - 1);
        assert PageAt(s, cursor, limit) == [s[0]] + page;
        if s[0].id == high {
          AllAbove(rest, cursor, high);
          AllAbove(page, cursor, high);
        } else {
          PageIsGapless(rest, cursor, limit - 1, high);
        }
      }
    }
  }

  lemma {:induction false} NothingBetween(s: seq<Event>, low: int, high: int)
    requires high <= low
    ensures Between(s, low, high) == []
  {
    if s != [] {
      NothingBetween(s[1..], low, high);
    }
  }

  lemma {:induction false} AllAbove(s: seq<Event>, low: int, high: int)
    requires forall e :: e in s ==> high < e.id
    ensures Between(s, low, high) == []
  {
    if s != [] {
      AllAbove(s[1..], low, high);
    }
  }

  /** What a read shows is everything showable up to the cursor it leaves: the cursor never passes an
      unread member. */
  lemma ReadIsLossless(s: seq<Event>, appBot: bool, cursor: int, limit: nat)
    requires Ascending(s)
    ensures var page := PageAt(s, cursor, limit);
            ShownOf(appBot, page) == ShownOf(appBot, Between(s, cursor, NextCursor(page, cursor)))
  {
    var page := PageAt(s, cursor, limit);
    var high := NextCursor(page, cursor);
    NextCursorBounds(page, cursor);
    PageMembers(s, cursor, limit);
    PageIsGapless(s, cursor, limit, high);
    ShownUpTo(appBot, page, cursor, high);
  }

  lemma {:induction false} ShownUpTo(appBot: bool, page: seq<Event>, low: int, high: int)
    requires forall e :: e in page ==> low < e.id && (e.decodable ==> e.id <= high)
    ensures ShownOf(appBot, page) == ShownOf(appBot, Between(page, low, high))
  {
    if page != [] {
      ShownUpTo(appBot, page[1..], low, high);
    }
  }

  /** Consecutive ranges join. */
  lemma {:induction false} BetweenJoins(s: seq<Event>, low: int, mid: int, high: int)
    requires Ascending(s) && low <= mid <= high
    ensures Between(s, low, high) == Between(s, low, mid) + Between(s, mid, high)
  {
    if s != [] {
      var first, rest := [s[0]], s[1..];
      BetweenJoins(rest, low, mid, high);
      if low < s[0].id <= mid {
        assert first + (Between(rest, low, mid) + Between(rest, mid, high)) == (first + Between(rest, low, mid)) + Between(rest, mid, high);
      } else if mid < s[0].id {
        RestIsAbove(s);
        AllAbove(rest, low, mid);
        assert [] + Between(s, mid, high) == Between(s, mid, high);
        assert [] + Between(rest, mid, high) == Between(rest, mid, high);
      }
    }
  }

  lemma RestIsAbove(s: seq<Event>)
    requires Ascending(s) && s != []
    ensures forall e :: e in s[1..] ==> s[0].id < e.id
  {
  }

  lemma {:induction false} ShownJoins(appBot: bool, s: seq<Event>, t: seq<Event>)
    ensures ShownOf(appBot, s + t) == ShownOf(appBot, s) + ShownOf(appBot, t)
  {
    if s == [] {
      assert s + t == t;
    } else {
      assert (s + t)[1..] == s[1..] + t && (s + t)[0] == s[0];
      ShownJoins(appBot, s[1..], t);
    }
  }

  /** Later publications do not change what lies at or below an id already published. */
  lemma {:induction false} BetweenStays(s: seq<Event>, t: seq<Event>, low: int, high: int)
    requires Ascending(s + t) && (high <= low || exists e :: e in s && high <= e.id)
    ensures Between(s + t, low, high) == Between(s, low, high)
  {
    if high <= low {
      NothingBetween(s + t, low, high);
      NothingBetween(s, low, high);
    } else if s == [] {
      assert false;
    } else {
      var e :| e in s && high <= e.id;
      assert (s + t)[1..] == s[1..] + t && (s + t)[0] == s[0];
      if s[1..] == [] || e !in s[1..] {
        assert e == s[0];
        forall x | x in s[1..] + t ensures high < x.id {
          var i :| 0 <= i < |s[1..] + t| && (s[1..] + t)[i] == x;
          assert (s + t)[i + 1] == x;
        }
        AllAbove(s[1..] + t, low, high);
        AllAbove(s[1..], low, high);
      } else {
        BetweenStays(s[1..], t, low, high);
      }
    }
  }

  // ------------------------------------------------------------------------- auto-acked members

  /** The members still queued. */
  function Left(s: seq<Event>, acked: set<int>): seq<Event> {
    if s == [] then []
    else if s[0].id in acked then Left(s[1..], acked) else [s[0]] + Left(s[1..], acked)
  }

  /** Removing members at or below the cursor changes no later page. */
  lemma {:induction false} AcksAreIrrelevant(s: seq<Event>, acked: set<int>, cursor: int, limit: nat)
    requires forall id :: id in acked ==> id <= cursor
    ensures PageAt(Left(s, acked), cursor, limit) == PageAt(s, cursor, limit)
  {
    if s != [] && limit > 0 {
      AcksAreIrrelevant(s[1..], acked, cursor, if s[0].id <= cursor then limit else limit - 1);
      if s[0].id !in acked {
        assert Left(s, acked)[1..] == Left(s[1..], acked);
      }
    }
  }

  lemma {:induction false} DecodedShown(appBot: bool, s: seq<Event>)
    ensures ShownOf(appBot, Decoded(s)) == ShownOf(appBot, s)
    ensures forall e :: e in Decoded(s) <==> e in s && e.decodable
  {
    if s != [] {
      DecodedShown(appBot, s[1..]);
      assert forall e :: e in s <==> e == s[0] || e in s[1..];
    }
  }

  lemma {:induction false} DecodedCursor(s: seq<Event>, cursor: int)
    ensures NextCursor(Decoded(s), cursor) == NextCursor(s, cursor)
  {
    if s != [] {
      var front, last := s[..|s| - 1], s[|s| - 1];
      DecodedCursor(front, cursor);
      assert s == front + [last];
      DecodedJoins(front, [last]);
      assert [last][1..] == [];
      var d := Decoded(front);
      assert (d + [last])[..|d|] == d && d + [] == d;
    }
  }

  lemma {:induction false} DecodedJoins(s: seq<Event>, t: seq<Event>)
    ensures Decoded(s + t) == Decoded(s) + Decoded(t)
  {
    if s == [] {
      assert s + t == t;
    } else {
      assert (s + t)[1..] == s[1..] + t && (s + t)[0] == s[0];
      DecodedJoins(s[1..], t);
    }
  }

  lemma {:induction false} CursorStep(s: seq<Event>, i: nat, cursor: int)
    requires i < |s|
    ensures NextCursor(s[..i + 1], cursor) ==
            if s[i].decodable && NextCursor(s[..i], cursor) < s[i].id then s[i].id else NextCursor(s[..i], cursor)
  {
    assert s[..i + 1][..i] == s[..i];
  }

  // --------------------------------------------------------------------------------- the endpoint

  datatype Page = Page(visible: seq<Event>, cursor: int, advanced: bool, full: bool)

  /** One read of the queue: where from, and how much had been published by then. */
  datatype Read = Read(cursor: int, published: nat)

  function PageOf(history: seq<Event>, read: Read, limit: nat): seq<Event>
    requires read.published <= |history|
  {
    PageAt(history[..read.published], read.cursor, limit)
  }

  datatype Failure = ReadFailed

  /** A read that showed nothing, and the next one, where it left off. */
  ghost predicate Follows(history: seq<Event>, appBot: bool, limit: nat, a: Read, b: Read)
    requires a.published <= |history|
  {
    && a.published <= b.published
    && b.cursor == NextCursor(PageOf(history, a, limit), a.cursor)
    && ShownOf(appBot, PageOf(history, a, limit)) == []
  }

  /** Reads in cursor succession, each where the one before left off, all but the last showing nothing. */
  ghost predicate Succession(history: seq<Event>, appBot: bool, limit: nat, start: int, trail: seq<Read>) {
    && (forall i :: 0 <= i < |trail| ==> trail[i].published <= |history|)
    && (trail != [] ==> trail[0].cursor == start)
    && (forall j :: 0 < j < |trail| ==> Follows(history, appBot, limit, trail[j - 1], trail[j]))
  }

  /** What the last read shows. */
  function Answer(history: seq<Event>, appBot: bool, limit: nat, trail: seq<Read>): seq<Event>
    requires forall i :: 0 <= i < |trail| ==> trail[i].published <= |history|
  {
    if trail == [] then [] else ShownOf(appBot, PageOf(history, trail[|trail| - 1], limit))
  }

  /** Where the last read leaves the cursor. */
  function End(history: seq<Event>, limit: nat, start: int, trail: seq<Read>): int
    requires forall i :: 0 <= i < |trail| ==> trail[i].published <= |history|
  {
    if trail == [] then start
    else
      var last := trail[|trail| - 1];
      NextCursor(PageOf(history, last, limit), last.cursor)
  }

  /** After a full page that moved the cursor the next read follows at once, before anything else can be
      published. */
  ghost predicate Prompt(history: seq<Event>, limit: nat, trail: seq<Read>) {
    && (forall i :: 0 <= i < |trail| ==> trail[i].published <= |history|)
    && (forall j :: 0 < j < |trail| && |PageOf(history, trail[j - 1], limit)| >= limit
                    && trail[j - 1].cursor < trail[j].cursor ==>
          trail[j].published == trail[j - 1].published)
  }

  lemma PromptStart(history: seq<Event>, limit: nat)
    ensures Prompt(history, limit, [])
  {
  }

  lemma PromptMore(history: seq<Event>, limit: nat, trail: seq<Read>, read: Read)
    requires Prompt(history, limit, trail) && read.published <= |history|
    requires trail != [] ==>
               var last := trail[|trail| - 1];
               |PageOf(history, last, limit)| >= limit && last.cursor < read.cursor ==> read.published == last.published
    ensures Prompt(history, limit, trail + [read])
  {
    hide PageOf;
  }

  lemma PromptJoined(history: seq<Event>, limit: nat, first: Read, rest: seq<Read>)
    requires Prompt(history, limit, rest) && first.published <= |history|
    requires rest != [] && |PageOf(history, first, limit)| >= limit && first.cursor < rest[0].cursor ==>
               rest[0].published == first.published
    ensures Prompt(history, limit, [first] + rest)
  {
    hide PageOf;
  }

  class Bot {
    const appBot: bool
    /** The members queued when the request arrived and all published later, by id. */
    const history: seq<Event>
    var published: nat
    var acked: set<int>
    /** The clock, doorbell rings still to come, whether the caller has gone, and whether the queue cannot
        be read. */
    var now: int
    var tokens: nat
    var cancelled: bool
    var down: bool

    ghost predicate Valid()
      reads this
    {
      Ascending(history) && published <= |history|
    }

    constructor (appBot: bool, history: seq<Event>, published: nat, now: int, tokens: nat, down: bool)
      requires Ascending(history) && published <= |history|
      ensures this.appBot == appBot && this.history == history && this.published == published
      ensures acked == {} && this.now == now && this.tokens == tokens && !cancelled && this.down == down && Valid()
    {
      this.appBot, this.history, this.published := appBot, history, published;
      acked, this.now, this.tokens, cancelled, this.down := {}, now, tokens, false, down;
    }

    /** getEventsResult: the members read, and those that decode. */
    method GetEventsResult(cursor: int, limit: nat) returns (ok: bool, raw: seq<Event>, count: nat)
      requires Valid() && forall id :: id in acked ==> id <= cursor
      ensures ok <==> !down
      ensures ok ==> raw == Decoded(PageAt(history[..published], cursor, limit))
      ensures ok ==> count == |PageAt(history[..published], cursor, limit)|
    {
      if down {
        return false, [], 0;
      }
      ok := true;
      var members := PageAt(Left(history[..published], acked), cursor, limit);
      AcksAreIrrelevant(history[..published], acked, cursor, limit);
      raw := [];
      for i := 0 to |members|
        invariant raw == Decoded(members[..i])
      {
        assert members[..i + 1] == members[..i] + [members[i]] && [members[i]][1..] == [];
        DecodedJoins(members[..i], [members[i]]);
        if members[i].decodable {
          raw := raw + [members[i]];
        }
      }
      assert members[..|members|] == members;
      count := |members|;
    }

    /** filterAppBotEvents: dropped events are auto-acked, which may fail without consequence. */
    method FilterAppBotEvents(raw: seq<Event>) returns (visible: seq<Event>)
      requires forall e :: e in raw ==> e.decodable
      modifies this`acked
      ensures visible == ShownOf(appBot, raw)
      ensures old(acked) <= acked && forall id :: id in acked ==> id in old(acked) || exists e :: e in raw && e.id == id
    {
      visible := [];
      for i := 0 to |raw|
        invariant visible == ShownOf(appBot, raw[..i])
        invariant old(acked) <= acked
        invariant forall id :: id in acked ==> id in old(acked) || exists e :: e in raw && e.id == id
      {
        assert raw[..i + 1] == raw[..i] + [raw[i]] && [raw[i]][1..] == [];
        ShownJoins(appBot, raw[..i], [raw[i]]);
        if Dropped(appBot, raw[i]) {
          var succeeds: bool := *;
          if succeeds {
            acked := acked + {raw[i].id};
          }
        } else {
          visible := visible + [raw[i]];
        }
      }
      assert raw[..|raw|] == raw;
    }

    /** What the page is does not depend on which auto-acks ever succeeded. */
    method ReadEventPage(cursor: int, limit: nat) returns (r: Result<Page, Failure>)
      requires Valid() && forall id :: id in acked ==> id <= cursor
      modifies this`acked
      ensures Valid() && (if down then r == Err(ReadFailed) else r.Ok?)
      ensures r.Ok? ==>
                var p, page := PageAt(history[..published], cursor, limit), r.value;
                && page.visible == ShownOf(appBot, p) && page.cursor == NextCursor(p, cursor)
                && page.advanced == (cursor < page.cursor) && page.full == (|p| >= limit)
                && (forall id :: id in acked ==> id <= page.cursor)
                && cursor <= page.cursor && (page.advanced ==> Distance(page.cursor) < Distance(cursor))
    {
      var ok, raw, count := GetEventsResult(cursor, limit);
      if !ok {
        return Err(ReadFailed);
      }
      ghost var p := PageAt(history[..published], cursor, limit);
      PageCursor(history[..published], appBot, cursor, limit);
      PageWithin(history[..published], cursor, limit);
      var high := Highest(raw, cursor);
      var visible := FilterAppBotEvents(raw);
      return Ok(Page(visible, high, high > cursor, count >= limit));
    }

    /** Other requests publish; time passes; the caller may go, and the queue may fail or recover. */
    method Elapse()
      requires Valid()
      modifies this`published, this`now, this`cancelled, this`down
      ensures Valid() && old(published) <= published && old(now) <= now && (old(cancelled) ==> cancelled)
    {
      var more: nat, spent: nat, gone: bool := *, *, *;
      if more <= |history| - published {
        published := published + more;
      }
      now := now + spent;
      cancelled := cancelled || gone;
      down := *;
    }

    /** BLPOP for one chunk: a ring is consumed, the chunk is over, or the call failed and the rest of the
        chunk was slept out. */
    method Block(chunk: int)
      requires Valid() && chunk > 0
      modifies this`published, this`now, this`tokens, this`cancelled, this`down
      ensures Valid() && old(published) <= published && old(now) <= now && tokens <= old(tokens)
      ensures tokens < old(tokens) || old(now) + chunk <= now || cancelled
    {
      Elapse();
      var ringing: bool, hungUp: bool := *, *;
      if ringing && tokens > 0 {
        tokens := tokens - 1;
      } else if hungUp {
        cancelled := true;
      } else {
        now := now + chunk;
      }
    }

    /** waitForEvents. A refused hold reads nothing. A granted one ends with the first page that shows
        anything; it ends empty only when the caller has gone or the time is up, and in the latter case
        not without having read everything published by then. It ends without any auto-ack ever
        succeeding: every round takes time, consumes a ring, advances the cursor towards the last id, or
        gives up the immediate re-read. */
    method WaitForEvents(entry: Page, limit: nat, wait: int, granted: bool, doorbell: bool)
      returns (r: Result<seq<Event>, Failure>, ghost trail: seq<Read>)
      requires Valid() && limit >= 1 && forall id :: id in acked ==> id <= entry.cursor
      modifies this
      ensures Valid()
      ensures Succession(history, appBot, limit, entry.cursor, trail)
      ensures forall i :: 0 <= i < |trail| ==> old(published) <= trail[i].published <= published
      ensures Answer(history, appBot, limit, trail) != [] ==> r == Ok(Answer(history, appBot, limit, trail))
      ensures Answer(history, appBot, limit, trail) == [] ==> r == Ok([]) || (r == Err(ReadFailed) && down && granted && doorbell)
      ensures Prompt(history, limit, trail)
      ensures entry.full && entry.advanced && trail != [] ==> trail[0].published == old(published)
      ensures !granted || !doorbell ==> trail == []
      ensures granted && doorbell && r == Ok([]) ==> cancelled || wait <= 0 || Exhausted(old(now) + wait, trail)
    {
      hide PageAt, ShownOf, NextCursor, Ascending, Prompt;
      PromptStart(history, limit);
      trail := [];
      if !granted {
        Elapse();
        return Ok([]), trail;
      }
      if !doorbell {
        return Ok([]), trail;
      }
      var deadline := now + wait;
      var cursor := entry.cursor;
      var reread := entry.full && entry.advanced;
      while true
        invariant Valid() && forall id :: id in acked ==> id <= cursor
        invariant Succession(history, appBot, limit, entry.cursor, trail)
        invariant cursor == End(history, limit, entry.cursor, trail)
        invariant Answer(history, appBot, limit, trail) == []
        invariant Prompt(history, limit, trail)
        invariant trail == [] ==> reread == (entry.full && entry.advanced) && published == old(published)
        invariant trail != [] ==>
                    var last := trail[|trail| - 1];
                    reread == (|PageOf(history, last, limit)| >= limit && last.cursor < cursor)
        invariant entry.full && entry.advanced && trail != [] ==> trail[0].published == old(published)
        invariant old(published) <= published && forall i :: 0 <= i < |trail| ==> old(published) <= trail[i].published <= published
        invariant if trail == [] then now == old(now) else trail[|trail| - 1].published == published
        decreases (if deadline > now then deadline - now else 0), tokens, Distance(cursor), reread
      {
        if cancelled {
          return Ok([]), trail;
        }
        var chunk := EventWaitChunkFor(deadline - now);
        if chunk == 0 {
          return Ok([]), trail;
        }
        if !reread {
          Block(chunk);
        }
        if cancelled {
          return Ok([]), trail;
        }
        var page := ReadEventPage(cursor, limit);
        if page.Err? {
          return Err(page.error), trail;
        }
        ghost var read := Read(cursor, published);
        OneMoreRead(history, appBot, limit, entry.cursor, trail, read);
        PromptMore(history, limit, trail, read);
        trail := trail + [read];
        if page.value.visible != [] {
          return Ok(page.value.visible), trail;
        }
        cursor := page.value.cursor;
        reread := page.value.full && page.value.advanced;
      }
    }

    /** The time is up, and the last read saw everything published by now. */
    ghost predicate Exhausted(deadline: int, trail: seq<Read>)
      reads this
    {
      deadline <= now && trail != [] && trail[|trail| - 1].published == published
    }

    /** getEvents: an entry read, and a hold only when it shows nothing. The answer is exactly what may be
        shown between the caller's cursor and the cursor of the last read: nothing is skipped. An event
        that may be shown and is met by a read is in the answer, which that read ends. With a hold
        granted, an empty answer comes only to a caller who has gone, or after the time asked for. */
    method GetEvents(cursor: int, requested: int, waitSeconds: int, granted: bool, doorbell: bool)
      returns (r: Result<seq<Event>, Failure>, ghost trail: seq<Read>)
      requires Valid() && acked == {}
      modifies this
      ensures Valid()
      ensures var limit := ClampLimit(requested);
              && Succession(history, appBot, limit, cursor, trail) && Prompt(history, limit, trail)
              && (forall k, e :: 0 <= k < |trail| && e in PageOf(history, trail[k], limit)
                                 && e.decodable && (appBot ==> e.channelKind in {None, Some(0), Some(1)}) ==>
                    k == |trail| - 1 && r.Ok? && e in r.value)
              && (r.Ok? ==>
                    && r.value == Answer(history, appBot, limit, trail)
                    && trail != []
                    && r.value == ShownOf(appBot, Between(history[..trail[|trail| - 1].published], cursor,
                                                          End(history, limit, cursor, trail))))
      ensures if old(down) then trail == [] && r == Err(ReadFailed) else trail != [] && trail[0] == Read(cursor, old(published))
      ensures r.Err? ==> r == Err(ReadFailed) && down
      ensures !granted || !doorbell || waitSeconds <= 0 ==> |trail| <= 1
      ensures granted && doorbell && r == Ok([]) ==>
                cancelled || waitSeconds <= 0
                || Exhausted(old(now) + (if waitSeconds < 30 then waitSeconds else 30) * SECOND, trail)
    {
      hide PageAt, ShownOf, NextCursor, Between, Ascending;
      var limit := ClampLimit(requested);
      var wait := ClampEventWait(waitSeconds);
      ghost var first := Read(cursor, published);
      var page := ReadEventPage(cursor, limit);
      if page.Err? {
        return Err(page.error), [];
      }
      trail := [first];
      r := Ok(page.value.visible);
      if page.value.visible == [] && wait > 0 {
        ghost var rest;
        r, rest := WaitForEvents(page.value, limit, wait, granted, doorbell);
        trail := [first] + rest;
        Joined(history, appBot, limit, first, rest);
        PromptJoined(history, limit, first, rest);
      }
      if r.Ok? {
        Lossless(history, appBot, limit, cursor, trail);
      }
      MetEventsAreAnswered(history, appBot, limit, cursor, trail);
    }

    /** How far the greatest id is ahead of the cursor. */
    function Distance(cursor: int): nat {
      if history != [] && history[|history| - 1].id > cursor then history[|history| - 1].id - cursor else 0
    }

    method Highest(raw: seq<Event>, cursor: int) returns (high: int)
      requires forall e :: e in raw ==> e.decodable
      ensures high == NextCursor(raw, cursor)
    {
      high := cursor;
      for i := 0 to |raw|
        invariant high == NextCursor(raw[..i], cursor)
      {
        CursorStep(raw, i, cursor);
        assert raw[i] in raw;
        if raw[i].id > high {
          high := raw[i].id;
        }
      }
      assert raw[..|raw|] == raw;
    }
  }

  lemma PageCursor(s: seq<Event>, appBot: bool, cursor: int, limit: nat)
    requires Ascending(s)
    ensures var p := PageAt(s, cursor, limit);
            var raw := Decoded(p);
            var high := NextCursor(p, cursor);
            && (forall e :: e in raw ==> e.decodable && e.id <= high)
            && NextCursor(raw, cursor) == high && cursor <= high
            && (cursor < high ==> exists e :: e in s && e.id == high)
            && ShownOf(appBot, raw) == ShownOf(appBot, p)
  {
    var p := PageAt(s, cursor, limit);
    DecodedShown(appBot, p);
    DecodedCursor(p, cursor);
    NextCursorBounds(p, cursor);
    PageMembers(s, cursor, limit);
  }

  lemma PageWithin(s: seq<Event>, cursor: int, limit: nat)
    requires Ascending(s)
    ensures var high := NextCursor(PageAt(s, cursor, limit), cursor);
            cursor < high ==> s != [] && high <= s[|s| - 1].id
  {
    PageCursor(s, false, cursor, limit);
  }

  lemma OneMoreRead(history: seq<Event>, appBot: bool, limit: nat, start: int, trail: seq<Read>, read: Read)
    requires Succession(history, appBot, limit, start, trail) && Answer(history, appBot, limit, trail) == []
    requires read.cursor == End(history, limit, start, trail) && read.published <= |history|
    requires forall i :: 0 <= i < |trail| ==> trail[i].published <= read.published
    ensures Succession(history, appBot, limit, start, trail + [read])
    ensures Answer(history, appBot, limit, trail + [read]) == ShownOf(appBot, PageOf(history, read, limit))
    ensures End(history, limit, start, trail + [read]) == NextCursor(PageOf(history, read, limit), read.cursor)
  {
    var more := trail + [read];
    assert trail != [] ==> Follows(history, appBot, limit, trail[|trail| - 1], read);
    hide Follows, PageOf, NextCursor, ShownOf;
    forall j | 0 < j < |more| ensures Follows(history, appBot, limit, more[j - 1], more[j]) {
      if j < |trail| {
        assert Follows(history, appBot, limit, trail[j - 1], trail[j]);
      }
    }
  }

  /** The hold continues the entry read. */
  lemma Joined(history: seq<Event>, appBot: bool, limit: nat, first: Read, rest: seq<Read>)
    requires first.published <= |history| && ShownOf(appBot, PageOf(history, first, limit)) == []
    requires Succession(history, appBot, limit, NextCursor(PageOf(history, first, limit), first.cursor), rest)
    requires forall i :: 0 <= i < |rest| ==> first.published <= rest[i].published
    ensures Succession(history, appBot, limit, first.cursor, [first] + rest)
    ensures Answer(history, appBot, limit, [first] + rest) == Answer(history, appBot, limit, rest)
  {
  }

  lemma EarlierShowsNothing(history: seq<Event>, appBot: bool, limit: nat, start: int, trail: seq<Read>, k: nat)
    requires Succession(history, appBot, limit, start, trail) && k + 1 < |trail|
    ensures ShownOf(appBot, PageOf(history, trail[k], limit)) == []
  {
    var j := k + 1;
    assert Follows(history, appBot, limit, trail[j - 1], trail[j]);
  }

  /** Only the last read meets anything that may be shown, and the answer holds it. */
  lemma MetEventsAreAnswered(history: seq<Event>, appBot: bool, limit: nat, start: int, trail: seq<Read>)
    requires Succession(history, appBot, limit, start, trail)
    ensures forall k, e :: 0 <= k < |trail| && e in PageOf(history, trail[k], limit)
                           && e.decodable && (appBot ==> e.channelKind in {None, Some(0), Some(1)}) ==>
              k == |trail| - 1 && e in Answer(history, appBot, limit, trail)
  {
    forall k, e | 0 <= k < |trail| && e in PageOf(history, trail[k], limit)
                  && e.decodable && (appBot ==> e.channelKind in {None, Some(0), Some(1)})
      ensures k == |trail| - 1 && e in Answer(history, appBot, limit, trail)
    {
      hide PageOf, ShownOf;
      ShownMembers(appBot, PageOf(history, trail[k], limit));
      assert e in ShownOf(appBot, PageOf(history, trail[k], limit));
      if k + 1 < |trail| {
        EarlierShowsNothing(history, appBot, limit, start, trail, k);
      }
    }
  }

  /** Nothing showable lies between the start and a read's cursor. */
  ghost predicate Quiet(history: seq<Event>, appBot: bool, start: int, read: Read)
    requires read.published <= |history|
  {
    var s := history[..read.published];
    && ShownOf(appBot, Between(s, start, read.cursor)) == []
    && start <= read.cursor && (read.cursor == start || exists e :: e in s && read.cursor <= e.id)
  }

  lemma QuietStart(history: seq<Event>, appBot: bool, start: int, read: Read)
    requires read.published <= |history| && read.cursor == start
    ensures Quiet(history, appBot, start, read)
  {
    NothingBetween(history[..read.published], start, start);
  }

  /** A read shows exactly what may be shown from the start to where it leaves the cursor. */
  lemma QuietThenShown(history: seq<Event>, appBot: bool, limit: nat, start: int, read: Read)
    requires Ascending(history) && read.published <= |history| && Quiet(history, appBot, start, read)
    ensures var page := PageOf(history, read, limit);
            var high := NextCursor(page, read.cursor);
            && read.cursor <= high
            && ShownOf(appBot, page) == ShownOf(appBot, Between(history[..read.published], start, high))
            && (high == start || exists e :: e in history[..read.published] && high <= e.id)
  {
    var s := history[..read.published];
    var high := NextCursor(PageOf(history, read, limit), read.cursor);
    PageCursor(s, appBot, read.cursor, limit);
    ReadIsLossless(s, appBot, read.cursor, limit);
    BetweenJoins(s, start, read.cursor, high);
    ShownJoins(appBot, Between(s, start, read.cursor), Between(s, read.cursor, high));
  }

  lemma QuietNext(history: seq<Event>, appBot: bool, limit: nat, start: int, read: Read, next: Read)
    requires Ascending(history) && read.published <= next.published <= |history| && Quiet(history, appBot, start, read)
    requires ShownOf(appBot, PageOf(history, read, limit)) == []
    requires next.cursor == NextCursor(PageOf(history, read, limit), read.cursor)
    ensures Quiet(history, appBot, start, next)
  {
    QuietThenShown(history, appBot, limit, start, read);
    var s, t := history[..read.published], history[read.published..next.published];
    assert history[..next.published] == s + t;
    if next.cursor != start {
      BetweenStays(s, t, start, next.cursor);
    } else {
      NothingBetween(history[..next.published], start, start);
    }
  }

  lemma {:induction false} QuietThroughout(history: seq<Event>, appBot: bool, limit: nat, start: int, trail: seq<Read>, k: nat)
    requires Ascending(history) && Succession(history, appBot, limit, start, trail) && k < |trail|
    ensures Quiet(history, appBot, start, trail[k])
  {
    if k == 0 {
      QuietStart(history, appBot, start, trail[0]);
    } else {
      QuietThroughout(history, appBot, limit, start, trail, k - 1);
      QuietNext(history, appBot, limit, start, trail[k - 1], trail[k]);
    }
  }

  /** Losslessness: the answer is everything that may be shown between the start and the final cursor, as
      published by the last read. The cursor never passed an unread member. */
  lemma Lossless(history: seq<Event>, appBot: bool, limit: nat, start: int, trail: seq<Read>)
    requires Ascending(history) && Succession(history, appBot, limit, start, trail) && trail != []
    ensures Answer(history, appBot, limit, trail)
         == ShownOf(appBot, Between(history[..trail[|trail| - 1].published], start, End(history, limit, start, trail)))
  {
    QuietThroughout(history, appBot, limit, start, trail, |trail| - 1);
    QuietThenShown(history, appBot, limit, start, trail[|trail| - 1]);
  }

  lemma {:induction false} SameCursors(history: seq<Event>, appBot: bool, limit: nat, start: int,
                                      a: seq<Read>, b: seq<Read>, k: nat)
    requires Succession(history, appBot, limit, start, a) && Succession(history, appBot, limit, start, b)
    requires |a| == |b| && (forall i :: 0 <= i < |a| ==> a[i].published == b[i].published) && k < |a|
    ensures a[k] == b[k]
  {
    hide PageOf, NextCursor, ShownOf;
    if k > 0 {
      SameCursors(history, appBot, limit, start, a, b, k - 1);
    }
  }

  /** The answer is fixed by what was published at each read; auto-acks cannot change it. */
  lemma AnswerIsDetermined(history: seq<Event>, appBot: bool, limit: nat, start: int, a: seq<Read>, b: seq<Read>)
    requires Succession(history, appBot, limit, start, a) && Succession(history, appBot, limit, start, b)
    requires |a| == |b| && forall i :: 0 <= i < |a| ==> a[i].published == b[i].published
    ensures a == b && Answer(history, appBot, limit, a) == Answer(history, appBot, limit, b)
  {
    hide PageOf, NextCursor, ShownOf;
    forall k | 0 <= k < |a| ensures a[k] == b[k] {
      SameCursors(history, appBot, limit, start, a, b, k);
    }
  }

  /** The residual the code admits: a full page in which nothing decodes leaves the cursor where it was,
      so what lies behind it is not reached. */
  lemma {:induction false} UndecodablePageStalls(page: seq<Event>, cursor: int)
    requires forall e :: e in page ==> !e.decodable
    ensures NextCursor(page, cursor) == cursor
  {
    if page != [] {
      assert page[|page| - 1] in page;
      UndecodablePageStalls(page[..|page| - 1], cursor);
    }
  }

  /** With decodable members only, every non-empty read makes progress. */
  lemma DecodablePageAdvances(s: seq<Event>, cursor: int, limit: nat)
    requires Ascending(s) && PageAt(s, cursor, limit) != [] && forall e :: e in s ==> e.decodable
    ensures var page := PageAt(s, cursor, limit);
            NextCursor(page, cursor) == page[|page| - 1].id > cursor
  {
    var page := PageAt(s, cursor, limit);
    PageMembers(s, cursor, limit);
    NextCursorBounds(page, cursor);
    assert page[|page| - 1] in page;
  }
}
