/** A run from the start in which the cursor passes a fetched message that nothing stores: its page holds an album that
  another message interrupts just after the batch. */
module InterruptedAlbum {
  import opened Text
  import opened TaskStore
  import opened Inbox
  import opened Polling
  import opened CursorSafety

  /** Every message is ten seconds old throughout. */
  function Settled(now: int): Dates { k => now - 10 }

  function Anything(): NewTask { NewTask(1, 1, 1, None, [], 1, Bot, None, true) }

  /** The rules do not match the message. */
  function Unmatched(): Context { Context(1, false, Anything(), true, 1, 1, true, false, false) }

  /** Source 1 is added and enabled, the account is on, and a poll fetches the page. */
  function Setup(): seq<Action> {
    [Disturbed(Save(1, 1, 1, 0, true)), Disturbed(Alter(1, Change(1, Some(true), None, false, false, None, true))),
     SetAccount(Account(true, Some(1))), SetClient(Some(1)), StartPoll(1), ChatVerified, PageFetched(InterruptedPage())]
  }

  /** `n` turns of the loop, each on a message whose chat has just been checked. */
  function Turns(n: nat): seq<Action> {
    if n == 0 then [] else [HandleNext(true, Unmatched())] + Turns(n - 1)
  }

  function Polled(now: int, cursor: int): Source { Source(1, 1, 2, true, false, cursor, false, now, 0, true) }

  /** The world once `i` messages of the page have been handled: their journal rows are there, and nothing else. */
  ghost predicate Handled(w: World, now: int, page: seq<Message>, i: nat) {
    && w.now == now && w.account == Account(true, Some(1)) && w.client == Some(1)
    && w.poll == Handling(1, Polled(now, 0), 1, now + SOURCE_POLL_TIMEOUT, page, i)
    && w.db.sources == map[1 := Polled(now, i)] && w.db.plans == map[] && |w.db.journal| <= i
    && forall k | k in w.db.journal :: k.message <= i
  }

  lemma PageAt(i: nat)
    requires i < 102
    ensures |InterruptedPage()| == 102 && InterruptedPage()[i].id == i + 1
    ensures 101 <= |Kept(InterruptedPage())|
    ensures i < 100 ==> Kept(InterruptedPage())[i] == InterruptedPage()[i]
  {
    var page := InterruptedPage();
    assert page[99].group == Some(7) && page[100].group == None && page[101] == Message(102, Some(7));
    InterruptedPageLosesMessage();
    KeptAt(page, 101);
    assert Kept(page)[..100] == page[..100];
    assert page[101] !in page[..100];
  }

  /** The message after the hundredth that is worked on is the last of the page. */
  lemma LastIsKept()
    ensures var page := InterruptedPage();
      |Kept(page)| == 101 && Kept(page)[100] == Message(102, Some(7)) && Message(101, None) in page
  {
    var page := InterruptedPage();
    assert page[99].group == Some(7) && page[100] == Message(101, None) && page[101] == Message(102, Some(7));
    assert page[100..] == [page[100], page[101]] && page[100..][1..] == [page[101]] && [page[101]][1..] == [];
    assert Members([page[101]], 7) == [page[101]];
  }

  /** The page begins with a hundred messages numbered from one. */
  ghost predicate Numbered(page: seq<Message>) {
    |Kept(page)| > 100 && forall i | 0 <= i < 100 :: Kept(page)[i].id == i + 1
  }

  lemma PageNumbered()
    ensures Numbered(InterruptedPage()) && forall m | m in InterruptedPage() :: m.id > 0
  {
    forall i | 0 <= i < 102
      ensures InterruptedPage()[i].id == i + 1 && (i < 100 ==> Kept(InterruptedPage())[i].id == i + 1)
    {
      PageAt(i);
    }
    PageAt(0);
  }

  lemma Turn(w: World, now: int, page: seq<Message>, i: nat, c: Calendar) returns (u: World)
    requires Handled(w, now, page, i) && i < 100 && Numbered(page)
    ensures Handled(u, now, page, i + 1)
    ensures forall n: nat | Plays(u, Turns(n), Settled(now), c) ::
      Plays(w, Turns(n + 1), Settled(now), c)
          && Play(w, Turns(n + 1), Settled(now), c) == Play(u, Turns(n), Settled(now), c)
  {
    var m := Kept(w.poll.page)[i];
    var k := Key(1, 1, i + 1);
    assert k !in w.db.journal;
    var d := Journal(w.db, k, 1, now);
    assert |d.journal| == |w.db.journal| + 1;
    assert Decide(w, 1, 2, m, Unmatched(), c) == Stores(d, false);
    u := Advance(w.(db := d));
    assert Next(w, HandleNext(true, Unmatched()), Settled(now), c) == u;
    forall n: nat | Plays(u, Turns(n), Settled(now), c)
      ensures Plays(w, Turns(n + 1), Settled(now), c)
        && Play(w, Turns(n + 1), Settled(now), c) == Play(u, Turns(n), Settled(now), c)
    {
      Act(w, HandleNext(true, Unmatched()), u, Turns(n), Settled(now), c);
    }
  }

  lemma Act(w: World, a: Action, u: World, rest: seq<Action>, d: Dates, c: Calendar)
    requires Possible(w, a, d) && Next(w, a, d, c) == u && Plays(u, rest, d, c)
    ensures Plays(w, [a] + rest, d, c) && Play(w, [a] + rest, d, c) == Play(u, rest, d, c)
  {
    assert ([a] + rest)[1..] == rest;
  }

  lemma {:induction false} AllTurns(w: World, now: int, page: seq<Message>, i: nat, n: nat, c: Calendar)
    returns (end: World)
    requires Handled(w, now, page, i) && i + n == 100 && Numbered(page)
    ensures Plays(w, Turns(n), Settled(now), c) && Play(w, Turns(n), Settled(now), c) == end
      && Handled(end, now, page, 100)
    decreases n
  {
    if n == 0 {
      end := w;
    } else {
      var u := Turn(w, now, page, i, c);
      end := AllTurns(u, now, page, i + 1, n - 1, c);
    }
  }

  /** Playing one sequence of actions after another. */
  lemma {:induction false} PlayOn(w: World, first: seq<Action>, second: seq<Action>, d: Dates, c: Calendar)
    requires Plays(w, first, d, c) && Plays(Play(w, first, d, c), second, d, c)
    ensures Plays(w, first + second, d, c) && Play(w, first + second, d, c) == Play(Play(w, first, d, c), second, d, c)
    decreases |first|
  {
    if first == [] {
      assert first + second == second;
    } else {
      assert (first + second)[1..] == first[1..] + second && (first + second)[0] == first[0];
      PlayOn(Next(w, first[0], d, c), first[1..], second, d, c);
    }
  }

  /** The worlds the setup goes through. */
  function Stage(now: int, j: nat): World {
    var source := if j == 1 then Source(1, 1, 1, false, false, 0, false, now, 0, true) else Polled(now, 0);
    var listed := Start(now).(db := Start(now).db.(sources := map[1 := source]));
    if j == 0 then Start(now)
    else
      listed.(account := if j < 3 then Account(false, None) else Account(true, Some(1)),
              client := if j < 4 then None else Some(1),
              poll := if j < 5 then Idle
                      else if j == 5 then VerifyingChat(1, Polled(now, 0), 1, now + SOURCE_POLL_TIMEOUT)
                      else if j == 6 then Listing(1, Polled(now, 0), 1, now + SOURCE_POLL_TIMEOUT)
                      else Handling(1, Polled(now, 0), 1, now + SOURCE_POLL_TIMEOUT, InterruptedPage(), 0))
  }

  lemma SourceStages(now: int, j: nat, c: Calendar)
    requires j < 2
    ensures Possible(Stage(now, j), Setup()[j], Settled(now))
      && Next(Stage(now, j), Setup()[j], Settled(now), c) == Stage(now, j + 1)
  {
    assert Next(Stage(now, j), Setup()[j], Settled(now), c).db.sources == Stage(now, j + 1).db.sources;
  }

  lemma AccountStages(now: int, j: nat, c: Calendar)
    requires 2 <= j < 5
    ensures Possible(Stage(now, j), Setup()[j], Settled(now))
      && Next(Stage(now, j), Setup()[j], Settled(now), c) == Stage(now, j + 1)
  {
  }

  lemma VerifiedStage(now: int, c: Calendar)
    ensures Possible(Stage(now, 5), ChatVerified, Settled(now))
      && Next(Stage(now, 5), ChatVerified, Settled(now), c) == Stage(now, 6)
  {
    assert Next(Stage(now, 5), ChatVerified, Settled(now), c).db.sources == Stage(now, 6).db.sources;
  }

  lemma PageIsFetchable()
    ensures var page := InterruptedPage(); Ascending(page) && |page| <= BATCH + 10 && forall m | m in page :: m.id > 0
  {
    InterruptedPageLosesMessage();
    PageNumbered();
  }

  lemma FetchedStage(now: int, c: Calendar)
    ensures var a := PageFetched(InterruptedPage());
      Possible(Stage(now, 6), a, Settled(now)) && Next(Stage(now, 6), a, Settled(now), c) == Stage(now, 7)
  {
    PageIsFetchable();
  }

  lemma {:induction false} SetupPlays(now: int, j: nat, c: Calendar)
    requires j <= 7
    ensures Plays(Stage(now, j), Setup()[j..], Settled(now), c)
    ensures Play(Stage(now, j), Setup()[j..], Settled(now), c) == Stage(now, 7)
    decreases 7 - j
  {
    if j < 7 {
      if j < 2 {
        SourceStages(now, j, c);
      } else if j < 5 {
        AccountStages(now, j, c);
      } else if j == 5 {
        VerifiedStage(now, c);
      } else {
        FetchedStage(now, c);
      }
      SetupPlays(now, j + 1, c);
      assert Setup()[j..][1..] == Setup()[j + 1..];
    }
  }

  /** Counterexample: in this run the next turn of the loop moves the cursor from 100 to 102 although message 101 was
    fetched with the page and neither a journal row nor a plan for it is stored. */
  lemma InterruptedPageIsPassed(now: int, c: Calendar)
    ensures var w := Play(Start(now), Setup() + Turns(100), Settled(now), c);
      var a := HandleNext(true, Unmatched()); var u := Next(w, a, Settled(now), c);
      && Plays(Start(now), Setup() + Turns(100), Settled(now), c) && Possible(w, a, Settled(now))
      && AtPage(w.poll) && Moved(w, u, 1) && Passed(w.poll, Message(101, None), 100, 102)
      && w.db.sources[1].cursor == 100 && u.db.sources[1].cursor == 102
      && !Stored(u.db, KeyFor(w.poll.src, Message(101, None))) && !PassesAllDecided(w, u)
  {
    var d := Settled(now);
    SetupPlays(now, 0, c);
    assert Setup()[0..] == Setup();
    PageNumbered();
    var end := AllTurns(Stage(now, 7), now, InterruptedPage(), 0, 100, c);
    PlayOn(Start(now), Setup(), Turns(100), d, c);
    var w := Play(Start(now), Setup() + Turns(100), d, c);
    LastIsKept();
    LastTurn(w, now, c);
  }

  lemma LastTurn(w: World, now: int, c: Calendar)
    requires Handled(w, now, InterruptedPage(), 100) && |Kept(InterruptedPage())| == 101
    requires Kept(InterruptedPage())[100] == Message(102, Some(7)) && Message(101, None) in InterruptedPage()
    ensures var a := HandleNext(true, Unmatched()); var u := Next(w, a, Settled(now), c);
      && Possible(w, a, Settled(now)) && Moved(w, u, 1) && u.db.sources[1].cursor == 102
      && !Stored(u.db, Key(1, 1, 101)) && !PassesAllDecided(w, u)
  {
    var a := HandleNext(true, Unmatched());
    var k := Key(1, 1, 102);
    var d := Journal(w.db, k, 1, now);
    assert Decide(w, 1, 2, Message(102, Some(7)), Unmatched(), c) == Stores(d, false);
    var u := Next(w, a, Settled(now), c);
    assert u == Advance(w.(db := d));
    assert Key(1, 1, 101) !in u.db.journal && u.db.plans == map[];
    assert Moved(w, u, 1) && Passed(w.poll, Message(101, None), 100, 102);
  }
}
