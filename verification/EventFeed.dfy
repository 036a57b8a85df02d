/** Reading the feed: cursors that poll it and the webhook fan-out's high-water mark
    (internal/controlplane/events.go, webhooks.go and webhook_delivery.go): no silent gap
    for a follower, and the deliveries of one unbounded pass from bounded ones. */
module EventFeed {
  import opened Options
  import EventFlow

  type Project = nat
  type EventId = nat
  type Kind = nat

  datatype Item = Item(sequence: nat, id: EventId, project: Project, kind: Kind, recorded: int)

  const RETENTION := 7 * 24 * 3600

  /** The feed's sequences are allocated under a lock held to commit: they ascend, and so do all that follow.
      Recording times need not: a transaction is dated before it gets the lock. */
  ghost predicate Ascending(feed: seq<Item>) {
    && (forall i, j :: 0 <= i < j < |feed| ==> feed[i].sequence < feed[j].sequence && feed[i].id != feed[j].id)
    && (forall i :: 0 <= i < |feed| ==> feed[i].sequence > 0)
  }

  /** The project's entries with a < sequence <= b, in order. */
  function Between(feed: seq<Item>, project: Project, a: nat, b: nat): seq<Item> {
    if feed == [] then []
    else (if feed[0].project == project && a < feed[0].sequence <= b then [feed[0]] else []) + Between(feed[1..], project, a, b)
  }

  function Last(feed: seq<Item>): nat { if feed == [] then 0 else feed[|feed| - 1].sequence }

  /** The rows a poll reads: after the cursor and still retained. */
  function Retained(feed: seq<Item>, project: Project, after: nat, now: int): seq<Item> {
    if feed == [] then []
    else (if feed[0].project == project && after < feed[0].sequence && feed[0].recorded > now - RETENTION then [feed[0]] else [])
         + Retained(feed[1..], project, after, now)
  }

  /** The highest sequence of the project that retention has passed. */
  function Expired(feed: seq<Item>, project: Project, now: int): nat {
    if feed == [] then 0
    else
      var rest := Expired(feed[1..], project, now);
      if feed[0].project == project && feed[0].recorded <= now - RETENTION && rest < feed[0].sequence then feed[0].sequence else rest
  }

  function Take<T>(s: seq<T>, n: nat): seq<T> { if n < |s| then s[..n] else s }

  // --- Polling ---------------------------------------------------------------------

  datatype Cursor = Cursor(project: Project, sequence: nat, issued: int)
  datatype Polled = Page(items: seq<Item>, next: Cursor) | Gone | Invalid

  /** A poll without a cursor reads from the start of what is retained. */
  function Poll(feed: seq<Item>, now: int, project: Project, cursor: Option<Cursor>, limit: nat): Polled {
    if cursor.None? then Rows(feed, now, project, 0, limit)
    else if cursor.value.project != project || cursor.value.issued > now + 60 then Invalid
    else if cursor.value.issued < now - RETENTION || cursor.value.sequence < Expired(feed, project, now) then Gone
    else Rows(feed, now, project, cursor.value.sequence, limit)
  }

  function Rows(feed: seq<Item>, now: int, project: Project, after: nat, limit: nat): Polled {
    var items := Take(Retained(feed, project, after, now), limit);
    Page(items, Cursor(project, if items == [] then after else items[|items| - 1].sequence, now))
  }

  /** The row loop: each row moves the cursor. */
  method PollEvents(feed: seq<Item>, now: int, project: Project, cursor: Option<Cursor>, limit: nat) returns (r: Polled)
    ensures r == Poll(feed, now, project, cursor, limit)
  {
    var start := 0;
    if cursor.Some? {
      if cursor.value.project != project || cursor.value.issued > now + 60 { return Invalid; }
      if cursor.value.issued < now - RETENTION { return Gone; }
      if cursor.value.sequence < Expired(feed, project, now) { return Gone; }
      start := cursor.value.sequence;
    }
    var rows := Take(Retained(feed, project, start, now), limit);
    var items, sequence := [], start;
    for i := 0 to |rows|
      invariant items == rows[..i] && sequence == if i == 0 then start else rows[i - 1].sequence
    {
      sequence := rows[i].sequence;
      items := items + [rows[i]];
    }
    return Page(items, Cursor(project, sequence, now));
  }

  // --- No silent gap -------------------------------------------------------------------

  lemma {:induction false} ExpiredBounds(feed: seq<Item>, project: Project, now: int, i: nat)
    requires i < |feed| && feed[i].project == project && feed[i].recorded <= now - RETENTION
    ensures feed[i].sequence <= Expired(feed, project, now)
  {
    if i > 0 { ExpiredBounds(feed[1..], project, now, i - 1); }
  }

  lemma {:induction false} ExpiredIsSome(feed: seq<Item>, project: Project, now: int)
    ensures var top := Expired(feed, project, now);
            top > 0 ==> exists i :: 0 <= i < |feed| && feed[i].project == project && feed[i].sequence == top && feed[i].recorded <= now - RETENTION
  {
    if feed != [] {
      ExpiredIsSome(feed[1..], project, now);
      var top := Expired(feed, project, now);
      if top > 0 && top == Expired(feed[1..], project, now) {
        var i :| 0 <= i < |feed[1..]| && feed[1..][i].project == project && feed[1..][i].sequence == top && feed[1..][i].recorded <= now - RETENTION;
        assert feed[i + 1].sequence == top;
      }
    }
  }

  predicate WeekOld(now: int, time: int) { now - time >= 7 * 24 * 3600 }

  /** The cursor is more than a week old, or an entry of its project that it has not passed is a week old. */
  ghost predicate Overdue(feed: seq<Item>, now: int, project: Project, cursor: Cursor) {
    || now - cursor.issued > 7 * 24 * 3600
    || exists i :: 0 <= i < |feed| && feed[i].project == project && cursor.sequence < feed[i].sequence && WeekOld(now, feed[i].recorded)
  }

  /** A cursor of the project is given up exactly when it is overdue, and no cursor of another project, or from the
      future, is taken for one. */
  lemma GoneIff(feed: seq<Item>, now: int, project: Project, cursor: Cursor, limit: nat)
    ensures Poll(feed, now, project, Some(cursor), limit) == Gone <==>
              cursor.project == project && cursor.issued <= now + 60 && Overdue(feed, now, project, cursor)
    ensures Poll(feed, now, project, Some(cursor), limit) == Invalid <==> !(cursor.project == project && cursor.issued <= now + 60)
  {
    ExpiredIsSome(feed, project, now);
    forall i | 0 <= i < |feed| && feed[i].project == project && WeekOld(now, feed[i].recorded) ensures feed[i].sequence <= Expired(feed, project, now) {
      ExpiredBounds(feed, project, now, i);
    }
    if cursor.sequence < Expired(feed, project, now) {
      var i :| 0 <= i < |feed| && feed[i].project == project && feed[i].sequence == Expired(feed, project, now) && feed[i].recorded <= now - RETENTION;
      assert WeekOld(now, feed[i].recorded);
    }
  }

  ghost predicate NoneExpired(feed: seq<Item>, project: Project, after: nat, now: int) {
    forall i :: 0 <= i < |feed| && feed[i].project == project && after < feed[i].sequence ==> feed[i].recorded > now - RETENTION
  }

  lemma NotBehindMeansRetained(feed: seq<Item>, project: Project, after: nat, now: int)
    requires Expired(feed, project, now) <= after
    ensures NoneExpired(feed, project, after, now)
  {
    forall i | 0 <= i < |feed| && feed[i].project == project && after < feed[i].sequence ensures feed[i].recorded > now - RETENTION {
      if feed[i].recorded <= now - RETENTION { ExpiredBounds(feed, project, now, i); }
    }
  }

  lemma {:induction false} RetainedIsAll(feed: seq<Item>, project: Project, after: nat, now: int, top: nat)
    requires NoneExpired(feed, project, after, now) && forall i :: 0 <= i < |feed| ==> feed[i].sequence <= top
    ensures Retained(feed, project, after, now) == Between(feed, project, after, top)
  {
    if feed != [] {
      assert feed[0].project == project && after < feed[0].sequence ==> feed[0].recorded > now - RETENTION;
      RetainedIsAll(feed[1..], project, after, now, top);
    }
  }

  lemma {:induction false} BetweenEmpty(feed: seq<Item>, project: Project, a: nat, b: nat)
    requires forall i :: 0 <= i < |feed| ==> !(a < feed[i].sequence <= b)
    ensures Between(feed, project, a, b) == []
  {
    if feed != [] {
      assert !(a < feed[0].sequence <= b);
      BetweenEmpty(feed[1..], project, a, b);
    }
  }

  predicate Within(x: Item, project: Project, a: nat, b: nat) { x.project == project && a < x.sequence <= b }

  lemma BetweenStep(feed: seq<Item>, project: Project, a: nat, b: nat)
    requires feed != []
    ensures Between(feed, project, a, b) == (if Within(feed[0], project, a, b) then [feed[0]] else []) + Between(feed[1..], project, a, b)
  {
  }

  lemma TakeStep(x: Item, rest: seq<Item>, n: nat)
    requires 0 < n <= |rest| + 1
    ensures ([x] + rest)[..n] == [x] + rest[..n - 1] && (n > 1 ==> ([x] + rest)[n - 1] == rest[n - 2])
  {
  }

  lemma BetweenAfterFirst(feed: seq<Item>, project: Project, a: nat)
    requires Ascending(feed) && feed != []
    ensures Between(feed[1..], project, a, feed[0].sequence) == []
  {
    BetweenEmpty(feed[1..], project, a, feed[0].sequence);
  }

  /** A page is the stretch of the feed up to its last entry. */
  lemma {:induction false} TakeIsBetween(feed: seq<Item>, project: Project, a: nat, top: nat, n: nat)
    requires Ascending(feed) && 0 < n <= |Between(feed, project, a, top)|
    ensures var page := Between(feed, project, a, top)[..n];
            page == Between(feed, project, a, page[n - 1].sequence) && a < page[n - 1].sequence <= top
  {
    var all, rest := Between(feed, project, a, top), Between(feed[1..], project, a, top);
    var hi := all[n - 1].sequence;
    BetweenHolds(feed, project, a, top, all[n - 1]);
    FirstIsLowest(feed, all[n - 1]);
    BetweenStep(feed, project, a, top);
    BetweenStep(feed, project, a, hi);
    if Within(feed[0], project, a, top) {
      TakeStep(feed[0], rest, n);
      if n == 1 { BetweenAfterFirst(feed, project, a); } else { TakeIsBetween(feed[1..], project, a, top, n - 1); }
    } else {
      TakeIsBetween(feed[1..], project, a, top, n);
    }
  }

  lemma FirstIsLowest(feed: seq<Item>, x: Item)
    requires Ascending(feed) && x in feed
    ensures feed[0].sequence <= x.sequence
  {
    var i :| 0 <= i < |feed| && feed[i] == x;
  }

  lemma {:induction false} BetweenHolds(feed: seq<Item>, project: Project, a: nat, b: nat, x: Item)
    requires x in Between(feed, project, a, b)
    ensures x in feed && x.project == project && a < x.sequence <= b
  {
    if feed[0] != x || !(feed[0].project == project && a < feed[0].sequence <= b) { BetweenHolds(feed[1..], project, a, b, x); }
  }

  lemma PrefixIsBetween(feed: seq<Item>, project: Project, a: nat, limit: nat)
    requires Ascending(feed) && limit > 0
    ensures var page := Take(Between(feed, project, a, Last(feed)), limit);
            var next := if page == [] then a else page[|page| - 1].sequence;
            page == Between(feed, project, a, next) && a <= next && (next == a || next <= Last(feed))
  {
    var all := Between(feed, project, a, Last(feed));
    var page := Take(all, limit);
    if page == [] {
      BetweenEmpty(feed, project, a, a);
    } else {
      assert page == all[..|page|];
      TakeIsBetween(feed, project, a, Last(feed), |page|);
    }
  }

  /** A page under a cursor is exactly the project's next entries after it, with nothing in between left out. */
  lemma PageIsNext(feed: seq<Item>, now: int, project: Project, cursor: Cursor, limit: nat)
    requires Ascending(feed) && Poll(feed, now, project, Some(cursor), limit).Page? && limit > 0
    ensures var p := Poll(feed, now, project, Some(cursor), limit);
            && p.items == Take(Between(feed, project, cursor.sequence, Last(feed)), limit)
            && p.items == Between(feed, project, cursor.sequence, p.next.sequence)
            && cursor.sequence <= p.next.sequence && (p.next.sequence == cursor.sequence || p.next.sequence <= Last(feed))
            && p.next.project == project && p.next.issued == now
  {
    NotBehindMeansRetained(feed, project, cursor.sequence, now);
    RetainedIsAll(feed, project, cursor.sequence, now, Last(feed));
    PrefixIsBetween(feed, project, cursor.sequence, limit);
  }

  lemma {:induction false} RetainedHolds(feed: seq<Item>, project: Project, after: nat, now: int, x: Item)
    requires x in Retained(feed, project, after, now)
    ensures x in feed && x.project == project && after < x.sequence && !WeekOld(now, x.recorded)
  {
    if x in Retained(feed[1..], project, after, now) { RetainedHolds(feed[1..], project, after, now, x); }
  }

  lemma {:induction false} RetainedAscends(feed: seq<Item>, project: Project, after: nat, now: int)
    requires Ascending(feed)
    ensures var r := Retained(feed, project, after, now);
            forall i, j :: 0 <= i < j < |r| ==> r[i].sequence < r[j].sequence
  {
    if feed != [] {
      RetainedAscends(feed[1..], project, after, now);
      var rest := Retained(feed[1..], project, after, now);
      forall i | 0 <= i < |rest| ensures feed[0].sequence < rest[i].sequence {
        RetainedHolds(feed[1..], project, after, now, rest[i]);
        var j :| 1 <= j < |feed| && feed[j] == rest[i];
      }
    }
  }

  lemma {:induction false} RetainedHasAll(feed: seq<Item>, project: Project, after: nat, now: int, x: Item)
    requires x in feed && x.project == project && after < x.sequence && !WeekOld(now, x.recorded)
    ensures x in Retained(feed, project, after, now)
  {
    if feed[0] != x { RetainedHasAll(feed[1..], project, after, now, x); }
  }

  /** The entry may be on a page that starts after a sequence. */
  ghost predicate Readable(x: Item, feed: seq<Item>, now: int, project: Project, after: nat) {
    x in feed && x.project == project && after < x.sequence && !WeekOld(now, x.recorded)
  }

  lemma PrefixTakesLowest(all: seq<Item>, limit: nat, x: Item)
    requires (forall i, j :: 0 <= i < j < |all| ==> all[i].sequence < all[j].sequence) && x in all && x !in Take(all, limit)
    ensures |Take(all, limit)| == limit && forall y :: y in Take(all, limit) ==> y.sequence < x.sequence
  {
    var j :| 0 <= j < |all| && all[j] == x;
    assert forall i :: 0 <= i < |Take(all, limit)| ==> all[i] == Take(all, limit)[i];
  }

  lemma RowsAreLowest(feed: seq<Item>, now: int, project: Project, after: nat, limit: nat)
    requires Ascending(feed)
    ensures var items := Take(Retained(feed, project, after, now), limit);
            && |items| <= limit && (forall i, j :: 0 <= i < j < |items| ==> items[i].sequence < items[j].sequence)
            && (forall x :: x in items ==> Readable(x, feed, now, project, after))
            && (forall x :: Readable(x, feed, now, project, after) && x !in items ==>
                  |items| == limit && forall y :: y in items ==> y.sequence < x.sequence)
  {
    var all := Retained(feed, project, after, now);
    var items := Take(all, limit);
    RetainedAscends(feed, project, after, now);
    forall x | x in items ensures Readable(x, feed, now, project, after) { RetainedHolds(feed, project, after, now, x); }
    forall x | Readable(x, feed, now, project, after) && x !in items ensures |items| == limit && forall y :: y in items ==> y.sequence < x.sequence {
      RetainedHasAll(feed, project, after, now, x);
      PrefixTakesLowest(all, limit, x);
    }
  }

  /** With or without a cursor, a page holds retained entries of the project in ascending order, the lowest first: what is
      left out comes later, and only once the page is full. Without a cursor it starts at the beginning. */
  lemma PageIsLowest(feed: seq<Item>, now: int, project: Project, cursor: Option<Cursor>, limit: nat)
    requires Ascending(feed) && Poll(feed, now, project, cursor, limit).Page?
    ensures var items := Poll(feed, now, project, cursor, limit).items;
            var after := if cursor.Some? then cursor.value.sequence else 0;
            && |items| <= limit && (forall i, j :: 0 <= i < j < |items| ==> items[i].sequence < items[j].sequence)
            && (forall x :: x in items ==> Readable(x, feed, now, project, after))
            && (forall x :: Readable(x, feed, now, project, after) && x !in items ==>
                  |items| == limit && forall y :: y in items ==> y.sequence < x.sequence)
  {
    var after := if cursor.Some? then cursor.value.sequence else 0;
    assert Poll(feed, now, project, cursor, limit).items == Take(Retained(feed, project, after, now), limit);
    RowsAreLowest(feed, now, project, after, limit);
  }

  /** One poll of a follower: when it asked, what the feed was then, and how much it asked for. */
  datatype Ask = Ask(feed: seq<Item>, now: int, limit: nat)

  /** Each feed extends the one before, and time does not run backwards. */
  ghost predicate Growing(asks: seq<Ask>) {
    && (forall i :: 0 <= i < |asks| ==> Ascending(asks[i].feed) && asks[i].limit > 0)
    && (forall i, j :: 0 <= i < j < |asks| ==> asks[i].feed <= asks[j].feed && asks[i].now <= asks[j].now)
  }

  /** Following next_cursor: everything received, or the answer that ended it - the cursor is gone (410) or was never
      one of this project (400). */
  datatype Received = Received(items: seq<Item>, cursor: Cursor) | Ended(answer: Polled)

  ghost function Follow(asks: seq<Ask>, project: Project, cursor: Cursor): Received {
    if asks == [] then Received([], cursor)
    else
      match Follow(asks[..|asks| - 1], project, cursor)
      case Ended(answer) => Ended(answer)
      case Received(items, c) =>
        var ask := asks[|asks| - 1];
        match Poll(ask.feed, ask.now, project, Some(c), ask.limit)
        case Page(more, next) => Received(items + more, next)
        case answer => Ended(answer)
  }

  lemma {:induction false} BetweenConcat(a: seq<Item>, b: seq<Item>, project: Project, lo: nat, hi: nat)
    ensures Between(a + b, project, lo, hi) == Between(a, project, lo, hi) + Between(b, project, lo, hi)
  {
    if a == [] {
      assert a + b == b;
    } else {
      assert (a + b)[1..] == a[1..] + b;
      BetweenConcat(a[1..], b, project, lo, hi);
    }
  }

  /** What lies up to the end of a feed does not change as the feed grows. */
  lemma GrowthKeepsPast(feed: seq<Item>, longer: seq<Item>, project: Project, lo: nat, hi: nat)
    requires Ascending(longer) && feed <= longer && (hi <= lo || hi <= Last(feed))
    ensures Between(longer, project, lo, hi) == Between(feed, project, lo, hi)
  {
    var added := longer[|feed|..];
    assert longer == feed + added;
    BetweenConcat(feed, added, project, lo, hi);
    forall i | 0 <= i < |added| ensures !(lo < added[i].sequence <= hi) {
      assert added[i] == longer[|feed| + i];
      if feed != [] { assert feed[|feed| - 1] == longer[|feed| - 1]; }
    }
    BetweenEmpty(added, project, lo, hi);
  }

  lemma Reassociate(a: seq<Item>, b: seq<Item>, c: seq<Item>)
    ensures (a + b) + c == a + (b + c)
  {
  }

  lemma JoinStep(x: Item, left: seq<Item>, right: seq<Item>)
    ensures ([x] + left) + right == [x] + (left + right) && [] + ([x] + right) == [x] + right
  {
  }

  lemma {:induction false} BetweenJoins(feed: seq<Item>, project: Project, a: nat, b: nat, c: nat)
    requires Ascending(feed) && a <= b <= c
    ensures Between(feed, project, a, b) + Between(feed, project, b, c) == Between(feed, project, a, c)
  {
    if feed != [] {
      BetweenJoins(feed[1..], project, a, b, c);
      BetweenStep(feed, project, a, b);
      BetweenStep(feed, project, b, c);
      BetweenStep(feed, project, a, c);
      JoinStep(feed[0], Between(feed[1..], project, a, b), Between(feed[1..], project, b, c));
      if Within(feed[0], project, b, c) { BetweenEmpty(feed[1..], project, a, b); }
    }
  }

  ghost predicate Issued(asks: seq<Ask>, project: Project, cursor: Cursor)
    requires asks != []
  {
    cursor.project == project && cursor.issued <= asks[0].now + 60
  }

  /** Only the first cursor can be refused as no cursor of the project; those the server gave are good. */
  lemma {:induction false} InvalidIff(asks: seq<Ask>, project: Project, cursor: Cursor)
    requires Growing(asks) && asks != []
    ensures Follow(asks, project, cursor) == Ended(Invalid) <==> !Issued(asks, project, cursor)
    ensures var r := Follow(asks, project, cursor);
            if r.Received? then r.cursor.project == project && r.cursor.issued == asks[|asks| - 1].now else r.answer in {Invalid, Gone}
  {
    var front, ask := asks[..|asks| - 1], asks[|asks| - 1];
    if front != [] {
      InvalidIff(front, project, cursor);
      assert front[|front| - 1] == asks[|asks| - 2];
    }
  }

  /** The n-th poll comes too late for the cursor that all polls before it led to. */
  ghost predicate TooLate(asks: seq<Ask>, project: Project, cursor: Cursor, n: nat)
    requires n < |asks|
  {
    var r := Follow(asks[..n], project, cursor);
    r.Received? && Overdue(asks[n].feed, asks[n].now, project, r.cursor)
  }

  lemma TooLateEarlier(asks: seq<Ask>, project: Project, cursor: Cursor, n: nat)
    requires n + 1 < |asks|
    ensures TooLate(asks[..|asks| - 1], project, cursor, n) <==> TooLate(asks, project, cursor, n)
  {
    assert asks[..|asks| - 1][..n] == asks[..n];
  }

  lemma LastPoll(asks: seq<Ask>, project: Project, cursor: Cursor)
    requires Growing(asks) && asks != []
    ensures var front := asks[..|asks| - 1];
            Follow(asks, project, cursor) == Ended(Gone) <==>
              || Follow(front, project, cursor) == Ended(Gone)
              || (Issued(asks, project, cursor) && TooLate(asks, project, cursor, |asks| - 1))
  {
    var front, ask := asks[..|asks| - 1], asks[|asks| - 1];
    InvalidIff(asks, project, cursor);
    var before := Follow(front, project, cursor);
    if before.Received? {
      GoneIff(ask.feed, ask.now, project, before.cursor, ask.limit);
      if front != [] {
        InvalidIff(front, project, cursor);
        assert front[|front| - 1] == asks[|asks| - 2];
      }
    }
  }

  /** A follower is given up exactly when one of its polls comes too late. */
  lemma {:induction false} EndedIff(asks: seq<Ask>, project: Project, cursor: Cursor)
    requires Growing(asks) && asks != []
    ensures Follow(asks, project, cursor) == Ended(Gone) <==>
              Issued(asks, project, cursor) && exists n: nat :: n < |asks| && TooLate(asks, project, cursor, n)
  {
    var front := asks[..|asks| - 1];
    LastPoll(asks, project, cursor);
    forall n: nat | n + 1 < |asks| ensures TooLate(front, project, cursor, n) <==> TooLate(asks, project, cursor, n) {
      TooLateEarlier(asks, project, cursor, n);
    }
    if front != [] {
      EndedIff(front, project, cursor);
      if Issued(asks, project, cursor) && exists n: nat :: n < |asks| && TooLate(asks, project, cursor, n) {
        var n: nat :| n < |asks| && TooLate(asks, project, cursor, n);
        assert n < |front| ==> TooLate(front, project, cursor, n);
      }
    }
  }

  /** A follower receives every entry of its project after its cursor, up to where it has come, exactly once and in
      order - unless one of its polls comes too late for the cursor it holds, which it is told, or the first cursor was
      none of this project, which it is told at once. */
  lemma NoSilentGap(asks: seq<Ask>, project: Project, cursor: Cursor)
    requires Growing(asks) && asks != []
    ensures var r := Follow(asks, project, cursor);
            r.Received? ==>
              && cursor.sequence <= r.cursor.sequence
              && (r.cursor.sequence == cursor.sequence || r.cursor.sequence <= Last(asks[|asks| - 1].feed))
              && r.items == Between(asks[|asks| - 1].feed, project, cursor.sequence, r.cursor.sequence)
    ensures Follow(asks, project, cursor) == Ended(Gone) <==>
              Issued(asks, project, cursor) && exists n: nat :: n < |asks| && TooLate(asks, project, cursor, n)
    ensures Follow(asks, project, cursor) == Ended(Invalid) <==> !Issued(asks, project, cursor)
    ensures var r := Follow(asks, project, cursor); r.Ended? ==> r.answer in {Gone, Invalid}
  {
    InvalidIff(asks, project, cursor);
    EndedIff(asks, project, cursor);
    Followed(asks, project, cursor);
  }

  lemma {:induction false} Followed(asks: seq<Ask>, project: Project, cursor: Cursor)
    requires Growing(asks) && asks != []
    ensures var r := Follow(asks, project, cursor);
            r.Received? ==>
              && cursor.sequence <= r.cursor.sequence
              && (r.cursor.sequence == cursor.sequence || r.cursor.sequence <= Last(asks[|asks| - 1].feed))
              && r.items == Between(asks[|asks| - 1].feed, project, cursor.sequence, r.cursor.sequence)
  {
    var front, ask := asks[..|asks| - 1], asks[|asks| - 1];
    var before := Follow(front, project, cursor);
    if before.Received? && Follow(asks, project, cursor).Received? {
      PageIsNext(ask.feed, ask.now, project, before.cursor, ask.limit);
      var next := Poll(ask.feed, ask.now, project, Some(before.cursor), ask.limit).next;
      if front != [] {
        Followed(front, project, cursor);
        var feed := front[|front| - 1].feed;
        assert feed == asks[|asks| - 2].feed;
        GrowthKeepsPast(feed, ask.feed, project, cursor.sequence, before.cursor.sequence);
        LastGrows(feed, ask.feed);
      } else {
        BetweenEmpty(ask.feed, project, cursor.sequence, cursor.sequence);
      }
      BetweenJoins(ask.feed, project, cursor.sequence, before.cursor.sequence, next.sequence);
    }
  }

  lemma LastGrows(feed: seq<Item>, longer: seq<Item>)
    requires Ascending(longer) && feed <= longer
    ensures Last(feed) <= Last(longer)
  {
    if feed != [] { assert feed[|feed| - 1] == longer[|feed| - 1]; }
  }

  // --- Webhook fan-out ---------------------------------------------------------------------

  datatype Delivery = Delivery(event: EventId, sequence: nat, kind: Kind)

  /** An endpoint, the deliveries enqueued for it, and how far into the feed it has come. */
  datatype Endpoint = Endpoint(project: Project, kinds: set<Kind>, cursor: nat, deliveries: seq<Delivery>)

  const BATCH := 500

  function DeliveryOf(x: Item): Delivery { Delivery(x.id, x.sequence, x.kind) }

  predicate Enqueued(deliveries: seq<Delivery>, id: EventId) { exists i :: 0 <= i < |deliveries| && deliveries[i].event == id }

  /** Insert, or do nothing on conflict. */
  function Enqueue(deliveries: seq<Delivery>, x: Item): seq<Delivery> {
    if Enqueued(deliveries, x.id) then deliveries else deliveries + [DeliveryOf(x)]
  }

  function EnqueueAll(deliveries: seq<Delivery>, items: seq<Item>, kinds: set<Kind>): seq<Delivery>
    decreases |items|
  {
    if items == [] then deliveries
    else EnqueueAll(if items[0].kind in kinds then Enqueue(deliveries, items[0]) else deliveries, items[1..], kinds)
  }

  /** One pass over at most `batch` rows. */
  function FanOut(feed: seq<Item>, now: int, e: Endpoint, batch: nat): Endpoint {
    var rows := Take(Retained(feed, e.project, e.cursor, now), batch);
    e.(deliveries := EnqueueAll(e.deliveries, rows, e.kinds), cursor := if rows == [] then e.cursor else rows[|rows| - 1].sequence)
  }

  /** The row loop: the wanted entries, and the highest sequence seen, wanted or not. */
  method ReadRows(rows: seq<Item>, kinds: set<Kind>, cursor: nat) returns (queue: seq<Item>, top: nat)
    requires forall i :: 0 <= i < |rows| ==> cursor < rows[i].sequence
    requires forall i, j :: 0 <= i < j < |rows| ==> rows[i].sequence < rows[j].sequence
    ensures queue == Wanted(rows, kinds) && top == if rows == [] then cursor else rows[|rows| - 1].sequence
  {
    queue, top := [], cursor;
    for i := 0 to |rows|
      invariant top == if i == 0 then cursor else rows[i - 1].sequence
      invariant queue == Wanted(rows[..i], kinds)
    {
      if rows[i].sequence > top { top := rows[i].sequence; }
      WantedNext(rows[..i], rows[i], kinds);
      assert rows[..i + 1] == rows[..i] + [rows[i]];
      if rows[i].kind in kinds { queue := queue + [rows[i]]; }
    }
    assert rows[..|rows|] == rows;
  }

  /** The queue is filled first, then written, one delivery each unless it is there. */
  method FanOutEndpoint(feed: seq<Item>, now: int, e: Endpoint) returns (r: Endpoint)
    requires Ascending(feed)
    ensures r == FanOut(feed, now, e, BATCH)
  {
    var rows := Take(Retained(feed, e.project, e.cursor, now), BATCH);
    RowsAscend(feed, e.project, e.cursor, now, rows);
    var queue, top := ReadRows(rows, e.kinds, e.cursor);
    EnqueueWanted(e.deliveries, rows, e.kinds);
    var deliveries, left := e.deliveries, queue;
    while left != []
      invariant EnqueueEach(deliveries, left) == EnqueueEach(e.deliveries, queue)
    {
      deliveries := Enqueue(deliveries, left[0]);
      left := left[1..];
    }
    return e.(deliveries := deliveries, cursor := top);
  }

  lemma RowsAscend(feed: seq<Item>, project: Project, after: nat, now: int, rows: seq<Item>)
    requires Ascending(feed) && rows <= Retained(feed, project, after, now)
    ensures (forall i :: 0 <= i < |rows| ==> after < rows[i].sequence)
    ensures (forall i, j :: 0 <= i < j < |rows| ==> rows[i].sequence < rows[j].sequence)
  {
    var all := Retained(feed, project, after, now);
    RetainedAscends(feed, project, after, now);
    forall i | 0 <= i < |all| ensures after < all[i].sequence { RetainedHolds(feed, project, after, now, all[i]); }
  }

  function Wanted(items: seq<Item>, kinds: set<Kind>): seq<Item> {
    if items == [] then [] else (if items[0].kind in kinds then [items[0]] else []) + Wanted(items[1..], kinds)
  }

  function EnqueueEach(deliveries: seq<Delivery>, items: seq<Item>): seq<Delivery>
    decreases |items|
  {
    if items == [] then deliveries else EnqueueEach(Enqueue(deliveries, items[0]), items[1..])
  }

  lemma WantedNext(items: seq<Item>, x: Item, kinds: set<Kind>)
    ensures Wanted(items + [x], kinds) == Wanted(items, kinds) + (if x.kind in kinds then [x] else [])
  {
    WantedConcat(items, [x], kinds);
    assert Wanted([x], kinds) == if x.kind in kinds then [x] else [];
  }

  lemma {:induction false} EnqueueWanted(deliveries: seq<Delivery>, items: seq<Item>, kinds: set<Kind>)
    ensures EnqueueEach(deliveries, Wanted(items, kinds)) == EnqueueAll(deliveries, items, kinds)
    decreases |items|
  {
    if items != [] {
      var rest := Wanted(items[1..], kinds);
      if items[0].kind in kinds {
        assert Wanted(items, kinds)[1..] == rest;
        EnqueueWanted(Enqueue(deliveries, items[0]), items[1..], kinds);
      } else {
        assert Wanted(items, kinds) == rest;
        EnqueueWanted(deliveries, items[1..], kinds);
      }
    }
  }

  // --- Bounded batches come to one unbounded pass ------------------------------------------------

  function DeliveriesOf(items: seq<Item>): seq<Delivery> {
    if items == [] then [] else [DeliveryOf(items[0])] + DeliveriesOf(items[1..])
  }

  /** The deliveries are exactly the subscribed entries since creation up to the mark, one each, in order. */
  ghost predicate FannedOut(feed: seq<Item>, e: Endpoint, created: nat) {
    && created <= e.cursor && (e.cursor == created || e.cursor <= Last(feed))
    && e.deliveries == DeliveriesOf(Wanted(Between(feed, e.project, created, e.cursor), e.kinds))
  }

  lemma {:induction false} DeliveriesConcat(a: seq<Item>, b: seq<Item>)
    ensures DeliveriesOf(a + b) == DeliveriesOf(a) + DeliveriesOf(b)
  {
    if a == [] {
      assert a + b == b;
    } else {
      assert (a + b)[1..] == a[1..] + b;
      DeliveriesConcat(a[1..], b);
    }
  }

  lemma {:induction false} WantedConcat(a: seq<Item>, b: seq<Item>, kinds: set<Kind>)
    ensures Wanted(a + b, kinds) == Wanted(a, kinds) + Wanted(b, kinds)
  {
    if a == [] {
      assert a + b == b;
    } else {
      assert (a + b)[1..] == a[1..] + b && (a + b)[0] == a[0];
      WantedConcat(a[1..], b, kinds);
      Reassociate(if a[0].kind in kinds then [a[0]] else [], Wanted(a[1..], kinds), Wanted(b, kinds));
    }
  }

  lemma EnqueuedNext(deliveries: seq<Delivery>, x: Item, id: EventId)
    requires !Enqueued(deliveries, id) && x.id != id
    ensures !Enqueued(deliveries + [DeliveryOf(x)], id)
  {
  }

  /** None of these events is enqueued yet, and each comes once. */
  ghost predicate AllNew(deliveries: seq<Delivery>, items: seq<Item>) {
    DistinctIds(items) && forall i :: 0 <= i < |items| ==> !Enqueued(deliveries, items[i].id)
  }

  lemma NewStaysNew(deliveries: seq<Delivery>, items: seq<Item>)
    requires items != [] && AllNew(deliveries, items)
    ensures AllNew(deliveries + [DeliveryOf(items[0])], items[1..])
  {
    forall i | 0 <= i < |items[1..]| ensures !Enqueued(deliveries + [DeliveryOf(items[0])], items[1..][i].id) {
      EnqueuedNext(deliveries, items[0], items[i + 1].id);
    }
  }

  lemma {:induction false} EnqueueNew(deliveries: seq<Delivery>, items: seq<Item>)
    requires AllNew(deliveries, items)
    ensures EnqueueEach(deliveries, items) == deliveries + DeliveriesOf(items)
    decreases |items|
  {
    if items != [] {
      NewStaysNew(deliveries, items);
      EnqueueNew(deliveries + [DeliveryOf(items[0])], items[1..]);
    }
  }

  lemma {:induction false} WantedAreItems(items: seq<Item>, kinds: set<Kind>)
    ensures forall x :: x in Wanted(items, kinds) ==> x in items
  {
    if items != [] { WantedAreItems(items[1..], kinds); }
  }

  ghost predicate DistinctIds(items: seq<Item>) { forall i, j :: 0 <= i < j < |items| ==> items[i].id != items[j].id }

  lemma {:induction false} WantedAreDistinct(items: seq<Item>, kinds: set<Kind>)
    requires DistinctIds(items)
    ensures DistinctIds(Wanted(items, kinds))
  {
    if items != [] {
      WantedAreDistinct(items[1..], kinds);
      var rest := Wanted(items[1..], kinds);
      WantedAreItems(items[1..], kinds);
      forall i | 0 <= i < |rest| ensures rest[i].id != items[0].id {
        assert rest[i] in items[1..];
        var j :| 1 <= j < |items| && items[j] == rest[i];
      }
    }
  }

  lemma {:induction false} DeliveriesAre(items: seq<Item>, i: nat)
    requires i < |DeliveriesOf(items)|
    ensures |DeliveriesOf(items)| == |items| && DeliveriesOf(items)[i].event == items[i].id
  {
    if i > 0 { DeliveriesAre(items[1..], i - 1); } else if |items| > 1 { DeliveriesAre(items[1..], 0); }
  }

  lemma {:induction false} BetweenAreEntries(feed: seq<Item>, project: Project, a: nat, b: nat)
    requires Ascending(feed)
    ensures DistinctIds(Between(feed, project, a, b))
  {
    if feed != [] {
      BetweenAreEntries(feed[1..], project, a, b);
      var rest := Between(feed[1..], project, a, b);
      forall i | 0 <= i < |rest| ensures feed[0].id != rest[i].id {
        BetweenHolds(feed[1..], project, a, b, rest[i]);
        var j :| 1 <= j < |feed| && feed[j] == rest[i];
      }
    }
  }

  lemma IdOnce(feed: seq<Item>, x: Item, y: Item)
    requires Ascending(feed) && x in feed && y in feed && x.id == y.id
    ensures x == y
  {
    var m :| 0 <= m < |feed| && feed[m] == x;
    var n :| 0 <= n < |feed| && feed[n] == y;
  }

  /** What is enqueued already lies below the mark; a new stretch above it repeats no event. */
  lemma StretchIsNew(feed: seq<Item>, e: Endpoint, created: nat, next: nat, i: nat)
    requires Ascending(feed) && FannedOut(feed, e, created)
    requires var w := Wanted(Between(feed, e.project, e.cursor, next), e.kinds); i < |w|
    ensures !Enqueued(e.deliveries, Wanted(Between(feed, e.project, e.cursor, next), e.kinds)[i].id)
  {
    var page, past := Between(feed, e.project, e.cursor, next), Between(feed, e.project, created, e.cursor);
    var x := Wanted(page, e.kinds)[i];
    WantedAreItems(page, e.kinds);
    BetweenHolds(feed, e.project, e.cursor, next, x);
    WantedAreItems(past, e.kinds);
    if Enqueued(e.deliveries, x.id) {
      var j :| 0 <= j < |e.deliveries| && e.deliveries[j].event == x.id;
      DeliveriesAre(Wanted(past, e.kinds), j);
      var y := Wanted(past, e.kinds)[j];
      BetweenHolds(feed, e.project, created, e.cursor, y);
      IdOnce(feed, x, y);
    }
  }

  lemma StretchEnqueued(feed: seq<Item>, e: Endpoint, created: nat, next: nat)
    requires Ascending(feed) && FannedOut(feed, e, created) && e.cursor <= next && (next == e.cursor || next <= Last(feed))
    ensures var page := Between(feed, e.project, e.cursor, next);
            FannedOut(feed, e.(cursor := next, deliveries := EnqueueAll(e.deliveries, page, e.kinds)), created)
  {
    var page, past := Between(feed, e.project, e.cursor, next), Between(feed, e.project, created, e.cursor);
    EnqueueWanted(e.deliveries, page, e.kinds);
    BetweenAreEntries(feed, e.project, e.cursor, next);
    WantedAreDistinct(page, e.kinds);
    forall i | 0 <= i < |Wanted(page, e.kinds)| ensures !Enqueued(e.deliveries, Wanted(page, e.kinds)[i].id) {
      StretchIsNew(feed, e, created, next, i);
    }
    EnqueueNew(e.deliveries, Wanted(page, e.kinds));
    DeliveriesConcat(Wanted(past, e.kinds), Wanted(page, e.kinds));
    WantedConcat(past, page, e.kinds);
    BetweenJoins(feed, e.project, created, e.cursor, next);
  }

  /** A pass takes the project's next entries, as many as the batch allows. */
  lemma PassIsNext(feed: seq<Item>, now: int, e: Endpoint, batch: nat)
    requires Ascending(feed) && NoneExpired(feed, e.project, e.cursor, now) && batch > 0
    ensures var next := FanOut(feed, now, e, batch).cursor;
            && e.cursor <= next && (next == e.cursor || next <= Last(feed))
            && Take(Retained(feed, e.project, e.cursor, now), batch) == Between(feed, e.project, e.cursor, next)
            && (|Between(feed, e.project, e.cursor, Last(feed))| <= batch ==> Between(feed, e.project, next, Last(feed)) == [])
            && (batch < |Between(feed, e.project, e.cursor, Last(feed))| ==>
                  |Between(feed, e.project, next, Last(feed))| == |Between(feed, e.project, e.cursor, Last(feed))| - batch)
  {
    RetainedIsAll(feed, e.project, e.cursor, now, Last(feed));
    var all := Between(feed, e.project, e.cursor, Last(feed));
    var n := if batch < |all| then batch else |all|;
    assert Take(all, batch) == all[..n];
    if n > 0 {
      TakeIsBetween(feed, e.project, e.cursor, Last(feed), n);
      BetweenJoins(feed, e.project, e.cursor, all[n - 1].sequence, Last(feed));
    } else {
      BetweenEmpty(feed, e.project, e.cursor, e.cursor);
    }
  }

  /** Every pass keeps the deliveries exact, provided it comes before retention has passed what is left. */
  lemma PassKeepsExact(feed: seq<Item>, now: int, e: Endpoint, created: nat, batch: nat)
    requires Ascending(feed) && FannedOut(feed, e, created) && NoneExpired(feed, e.project, e.cursor, now) && batch > 0
    ensures FannedOut(feed, FanOut(feed, now, e, batch), created)
  {
    PassIsNext(feed, now, e, batch);
    StretchEnqueued(feed, e, created, FanOut(feed, now, e, batch).cursor);
  }

  /** New entries do not disturb what has been fanned out. */
  lemma GrowthKeepsExact(feed: seq<Item>, longer: seq<Item>, e: Endpoint, created: nat)
    requires Ascending(longer) && feed <= longer && FannedOut(feed, e, created)
    ensures FannedOut(longer, e, created)
  {
    GrowthKeepsPast(feed, longer, e.project, created, e.cursor);
    LastGrows(feed, longer);
  }

  function FanOutTimes(feed: seq<Item>, now: int, e: Endpoint, batch: nat, n: nat): Endpoint
    decreases n
  {
    if n == 0 then e else FanOutTimes(feed, now, FanOut(feed, now, e, batch), batch, n - 1)
  }

  lemma PassLeavesUnexpired(feed: seq<Item>, now: int, e: Endpoint, batch: nat)
    requires Ascending(feed) && NoneExpired(feed, e.project, e.cursor, now) && batch > 0
    ensures NoneExpired(feed, e.project, FanOut(feed, now, e, batch).cursor, now)
  {
    PassIsNext(feed, now, e, batch);
  }

  lemma {:induction false} PassesReachEnd(feed: seq<Item>, now: int, e: Endpoint, created: nat, batch: nat, n: nat)
    requires Ascending(feed) && FannedOut(feed, e, created) && NoneExpired(feed, e.project, e.cursor, now) && batch > 0
    requires |Between(feed, e.project, e.cursor, Last(feed))| <= n
    ensures var r := FanOutTimes(feed, now, e, batch, n);
            FannedOut(feed, r, created) && r.project == e.project && r.kinds == e.kinds && Between(feed, e.project, r.cursor, Last(feed)) == []
    decreases n
  {
    if n > 0 {
      PassIsNext(feed, now, e, batch);
      PassKeepsExact(feed, now, e, created, batch);
      PassLeavesUnexpired(feed, now, e, batch);
      PassesReachEnd(feed, now, FanOut(feed, now, e, batch), created, batch, n - 1);
    }
  }

  lemma {:induction false} EmptyAfter(feed: seq<Item>, project: Project, a: nat, b: nat)
    requires Ascending(feed) && a <= Last(feed) && b <= Last(feed)
    requires Between(feed, project, a, Last(feed)) == [] && Between(feed, project, b, Last(feed)) == [] && a <= b
    ensures Between(feed, project, a, b) == []
  {
    BetweenJoins(feed, project, a, b, Last(feed));
  }

  /** Over a feed that stands still, as many bounded passes as there are entries left catch up: they enqueue what a
      single unbounded pass would. */
  lemma PassesCatchUp(feed: seq<Item>, now: int, e: Endpoint, created: nat, batch: nat, n: nat)
    requires Ascending(feed) && FannedOut(feed, e, created) && NoneExpired(feed, e.project, e.cursor, now) && batch > 0
    requires |Between(feed, e.project, e.cursor, Last(feed))| <= n && created <= Last(feed)
    ensures FanOutTimes(feed, now, e, batch, n).deliveries == FanOut(feed, now, e, |feed| + 1).deliveries
    ensures FanOutTimes(feed, now, e, batch, n).deliveries == DeliveriesOf(Wanted(Between(feed, e.project, created, Last(feed)), e.kinds))
  {
    PassesReachEnd(feed, now, e, created, batch, n);
    ReachedEnd(feed, FanOutTimes(feed, now, e, batch, n), created);
    OnePass(feed, now, e, created);
  }

  /** One pass of the fan-out: what the feed was then, when, and how many rows it took at most. */
  datatype Pass = Pass(feed: seq<Item>, now: int, batch: nat)

  ghost function AfterPasses(passes: seq<Pass>, e: Endpoint): Endpoint {
    if passes == [] then e
    else
      var last := passes[|passes| - 1];
      FanOut(last.feed, last.now, AfterPasses(passes[..|passes| - 1], e), last.batch)
  }

  /** The feed grows from pass to pass, and each pass comes before retention has overtaken the endpoint. */
  ghost predicate InTime(passes: seq<Pass>, e: Endpoint) {
    && (forall i :: 0 <= i < |passes| ==> Ascending(passes[i].feed) && passes[i].batch > 0)
    && (forall i, j :: 0 <= i < j < |passes| ==> passes[i].feed <= passes[j].feed)
    && (forall i: nat {:trigger TimelyPass(passes, e, i)} :: i < |passes| ==> TimelyPass(passes, e, i))
  }

  ghost predicate TimelyPass(passes: seq<Pass>, e: Endpoint, i: nat)
    requires i < |passes|
  {
    NoneExpired(passes[i].feed, e.project, AfterPasses(passes[..i], e).cursor, passes[i].now)
  }

  lemma InTimeBefore(passes: seq<Pass>, e: Endpoint)
    requires InTime(passes, e) && passes != []
    ensures InTime(passes[..|passes| - 1], e)
  {
    var front := passes[..|passes| - 1];
    forall i: nat | i < |front| ensures TimelyPass(front, e, i) {
      assert TimelyPass(passes, e, i) && front[..i] == passes[..i] && front[i] == passes[i];
    }
  }

  /** While the feed grows, the deliveries are exact up to the mark after every pass. */
  lemma {:induction false} PassesKeepExact(passes: seq<Pass>, e: Endpoint, created: nat)
    requires InTime(passes, e) && passes != [] && FannedOut(passes[0].feed, e, created)
    ensures var r := AfterPasses(passes, e);
            FannedOut(passes[|passes| - 1].feed, r, created) && r.project == e.project && r.kinds == e.kinds
  {
    var front, last := passes[..|passes| - 1], passes[|passes| - 1];
    var before := AfterPasses(front, e);
    assert TimelyPass(passes, e, |passes| - 1);
    if front != [] {
      InTimeBefore(passes, e);
      PassesKeepExact(front, e, created);
      GrowthKeepsExact(front[|front| - 1].feed, last.feed, before, created);
    }
    PassKeepsExact(last.feed, last.now, before, created, last.batch);
  }

  /** Bounded passes over a growing feed have enqueued, once a pass finds no more than it can take, exactly what a
      single unbounded pass over the whole feed would: the subscribed entries since the endpoint was created, one
      delivery each, in order. */
  lemma BatchesEqualOnePass(passes: seq<Pass>, e: Endpoint, created: nat)
    requires InTime(passes, e) && passes != [] && FannedOut(passes[0].feed, e, created) && created <= Last(passes[0].feed)
    requires var last := passes[|passes| - 1];
             |Between(last.feed, e.project, AfterPasses(passes[..|passes| - 1], e).cursor, Last(last.feed))| <= last.batch
    ensures var last := passes[|passes| - 1];
            && AfterPasses(passes, e).deliveries == DeliveriesOf(Wanted(Between(last.feed, e.project, created, Last(last.feed)), e.kinds))
            && (NoneExpired(last.feed, e.project, e.cursor, last.now) ==>
                  AfterPasses(passes, e).deliveries == FanOut(last.feed, last.now, e, |last.feed| + 1).deliveries)
  {
    var last := passes[|passes| - 1];
    var before := AfterPasses(passes[..|passes| - 1], e);
    BeforeLast(passes, e, created);
    PassIsNext(last.feed, last.now, before, last.batch);
    PassesKeepExact(passes, e, created);
    if |passes| > 1 { LastGrows(passes[0].feed, last.feed); GrowthKeepsExact(passes[0].feed, last.feed, e, created); }
    ReachedEnd(last.feed, AfterPasses(passes, e), created);
    if NoneExpired(last.feed, e.project, e.cursor, last.now) { OnePass(last.feed, last.now, e, created); }
  }

  lemma BeforeLast(passes: seq<Pass>, e: Endpoint, created: nat)
    requires InTime(passes, e) && passes != [] && FannedOut(passes[0].feed, e, created)
    ensures var last, before := passes[|passes| - 1], AfterPasses(passes[..|passes| - 1], e);
            before.project == e.project && before.kinds == e.kinds && NoneExpired(last.feed, e.project, before.cursor, last.now)
  {
    assert TimelyPass(passes, e, |passes| - 1);
    if |passes| > 1 {
      InTimeBefore(passes, e);
      PassesKeepExact(passes[..|passes| - 1], e, created);
    }
  }

  lemma OnePass(feed: seq<Item>, now: int, e: Endpoint, created: nat)
    requires Ascending(feed) && FannedOut(feed, e, created) && NoneExpired(feed, e.project, e.cursor, now) && created <= Last(feed)
    ensures FanOut(feed, now, e, |feed| + 1).deliveries == DeliveriesOf(Wanted(Between(feed, e.project, created, Last(feed)), e.kinds))
  {
    PassIsNext(feed, now, e, |feed| + 1);
    PassKeepsExact(feed, now, e, created, |feed| + 1);
    BetweenShorter(feed, e.project, e.cursor, Last(feed));
    ReachedEnd(feed, FanOut(feed, now, e, |feed| + 1), created);
  }

  lemma {:induction false} BetweenShorter(feed: seq<Item>, project: Project, a: nat, b: nat)
    ensures |Between(feed, project, a, b)| <= |feed|
  {
    if feed != [] { BetweenShorter(feed[1..], project, a, b); }
  }

  lemma ReachedEnd(feed: seq<Item>, e: Endpoint, created: nat)
    requires Ascending(feed) && FannedOut(feed, e, created) && Between(feed, e.project, e.cursor, Last(feed)) == [] && created <= Last(feed)
    ensures e.deliveries == DeliveriesOf(Wanted(Between(feed, e.project, created, Last(feed)), e.kinds))
  {
    BetweenJoins(feed, e.project, created, e.cursor, Last(feed));
    assert Between(feed, e.project, created, e.cursor) + [] == Between(feed, e.project, created, e.cursor);
  }

  /** A new endpoint starts at the end of its project's feed: nothing of the past is ever enqueued for it. */
  function HighWater(feed: seq<Item>, project: Project): nat {
    if feed == [] then 0
    else
      var rest := HighWater(feed[1..], project);
      if feed[0].project == project && rest < feed[0].sequence then feed[0].sequence else rest
  }

  function Created(feed: seq<Item>, project: Project, kinds: set<Kind>): Endpoint {
    Endpoint(project, kinds, HighWater(feed, project), [])
  }

  lemma {:induction false} HighWaterIsTop(feed: seq<Item>, project: Project)
    requires Ascending(feed)
    ensures HighWater(feed, project) <= Last(feed)
    ensures Between(feed, project, HighWater(feed, project), Last(feed)) == []
  {
    HighWaterBounds(feed, project);
    BetweenNone(feed, project, HighWater(feed, project), Last(feed));
  }

  lemma {:induction false} HighWaterBounds(feed: seq<Item>, project: Project)
    ensures forall i :: 0 <= i < |feed| && feed[i].project == project ==> feed[i].sequence <= HighWater(feed, project)
    ensures HighWater(feed, project) == 0 || exists i :: 0 <= i < |feed| && feed[i].sequence == HighWater(feed, project)
  {
    if feed != [] {
      HighWaterBounds(feed[1..], project);
      forall i | 0 <= i < |feed| && feed[i].project == project ensures feed[i].sequence <= HighWater(feed, project) {
        if i > 0 { assert feed[1..][i - 1] == feed[i]; }
      }
      var rest := HighWater(feed[1..], project);
      if HighWater(feed, project) == rest && rest != 0 {
        var i :| 0 <= i < |feed[1..]| && feed[1..][i].sequence == rest;
        assert feed[i + 1].sequence == rest;
      } else if HighWater(feed, project) != 0 {
        assert feed[0].sequence == HighWater(feed, project);
      }
    }
  }

  lemma {:induction false} BetweenNone(feed: seq<Item>, project: Project, a: nat, b: nat)
    requires forall i :: 0 <= i < |feed| && feed[i].project == project ==> feed[i].sequence <= a
    ensures Between(feed, project, a, b) == []
  {
    if feed != [] {
      assert feed[0].project == project ==> feed[0].sequence <= a;
      BetweenNone(feed[1..], project, a, b);
    }
  }

  lemma CreationIsExact(feed: seq<Item>, project: Project, kinds: set<Kind>)
    requires Ascending(feed)
    ensures var e := Created(feed, project, kinds); FannedOut(feed, e, e.cursor)
  {
    HighWaterIsTop(feed, project);
    BetweenEmpty(feed, project, HighWater(feed, project), HighWater(feed, project));
  }

  // --- The feed of a run ---------------------------------------------------------------------------

  /** The entries as readers see them: `kind` reads the event's type, `recorded` is when its transaction began. */
  function Items(feed: seq<EventFlow.Entry>, kind: EventFlow.Payload -> Kind, recorded: EventFlow.EventId -> int): seq<Item> {
    seq(|feed|, i requires 0 <= i < |feed| =>
      Item(feed[i].sequence, feed[i].id, feed[i].project, kind(feed[i].event), recorded(feed[i].id)))
  }

  /** What is assumed of the feed here is what the event workers keep: over every run it ascends and only grows. */
  lemma FeedOfRun(states: seq<EventFlow.World>, actions: seq<EventFlow.Action>, j: nat, k: nat,
                  kind: EventFlow.Payload -> Kind, recorded: EventFlow.EventId -> int)
    requires EventFlow.IsRun(states, actions) && j <= k < |states|
    ensures Ascending(Items(states[k].feed, kind, recorded))
    ensures Items(states[j].feed, kind, recorded) <= Items(states[k].feed, kind, recorded)
  {
    EventFlow.RunSound(states, actions, k);
    EventFlow.FeedGrows(states, actions, j, k);
  }
}
