/**
  Queue events in any number and order: which event of a DJ stays indexed, when the resting club is
  woken, and when the order of arrival shows.
 */
module QueueEvents {
  import opened Wrappers
  import opened QueueTags
  import opened Playback

  datatype Heard = Heard(dj: string, event: QueueEvent)

  /** The club after these events, in the order of arrival. */
  function Indexed(s: Club, es: seq<Heard>): Club {
    if es == [] then s
    else QueueIndexed(Indexed(s, es[..|es| - 1]), es[|es| - 1].dj, es[|es| - 1].event)
  }

  /** What the index could hold for the DJ: what it held, then what arrived. */
  function Offers(s: Club, es: seq<Heard>, dj: string): seq<QueueEvent> {
    if es == [] then if dj in s.queues then [s.queues[dj]] else []
    else
      var last := es[|es| - 1];
      Offers(s, es[..|es| - 1], dj) + if last.dj == dj then [last.event] else []
  }

  /** No offer is newer, and none that came before it is as new. */
  ghost predicate NewestFirst(offers: seq<QueueEvent>, q: QueueEvent) {
    exists i :: 0 <= i < |offers| && offers[i] == q && LeadsAt(offers, i)
  }

  ghost predicate LeadsAt(offers: seq<QueueEvent>, i: int)
    requires 0 <= i < |offers|
  {
    && (forall j | 0 <= j < |offers| :: offers[j].createdAt <= offers[i].createdAt)
    && (forall j | 0 <= j < i :: offers[j].createdAt < offers[i].createdAt)
  }

  /** A DJ's own event that has a track which is not switched off. */
  predicate Wakes(e: QueueEvent) {
    !e.relay && exists tag :: tag in e.tags && |tag| >= 2 && tag[0] == "track" && !(|tag| >= 5 && tag[4] == "off")
  }

  lemma OneMoreOffer(offers: seq<QueueEvent>, q: QueueEvent, e: QueueEvent)
    requires NewestFirst(offers, q)
    ensures NewestFirst(offers + [e], if e.createdAt > q.createdAt then e else q)
  {
    var i :| 0 <= i < |offers| && offers[i] == q && LeadsAt(offers, i);
    var all := offers + [e];
    if e.createdAt > q.createdAt {
      assert all[|offers|] == e && LeadsAt(all, |offers|);
    } else {
      assert all[i] == q && LeadsAt(all, i);
    }
  }

  lemma WakesIsActive(e: QueueEvent)
    ensures Wakes(e) <==> !e.relay && AnyActive(e.tags)
  {
  }

  /**
    After any queue events the index holds for each DJ the newest event, the first to arrive among
    those of the same second; the club is woken exactly if a DJ offered something himself; and nothing
    else has changed.
   */
  lemma {:induction false} IndexHoldsNewestQueue(s: Club, es: seq<Heard>, dj: string)
    ensures var r, offers := Indexed(s, es), Offers(s, es, dj);
            && (dj in r.queues <==> offers != [])
            && (dj in r.queues ==> NewestFirst(offers, r.queues[dj]))
            && r == s.(queues := r.queues, woken := r.woken)
            && (r.woken <==> s.woken || exists e :: e in es && Wakes(e.event))
  {
    hide AnyActive, Wakes, NewestFirst;
    if es == [] {
      if dj in s.queues { OnlyOffer(s.queues[dj]); }
    } else {
      var front, last := es[..|es| - 1], es[|es| - 1];
      IndexHoldsNewestQueue(s, front, dj);
      WakesIsActive(last.event);
      assert forall e :: e in es <==> e in front || e == last;
      var t := Indexed(s, front);
      if last.dj == dj {
        if dj in t.queues {
          OneMoreOffer(Offers(s, front, dj), t.queues[dj], last.event);
        } else {
          OnlyOffer(last.event);
          assert [] + [last.event] == [last.event];
        }
      } else {
        assert Offers(s, front, dj) + [] == Offers(s, front, dj);
      }
    }
  }

  lemma OnlyOffer(e: QueueEvent)
    ensures NewestFirst([e], e)
  {
    assert LeadsAt([e], 0);
  }

  /**
    The order of arrival shows exactly between two different events of one second that are both newer
    than what is indexed: whichever comes first stays.
   */
  lemma {:induction false} ArrivalOrderShows(s: Club, dj: string, a: QueueEvent, b: QueueEvent)
    ensures Indexed(s, [Heard(dj, a), Heard(dj, b)]).queues != Indexed(s, [Heard(dj, b), Heard(dj, a)]).queues
       <==> a != b && a.createdAt == b.createdAt
            && (dj in s.queues ==> a.createdAt > s.queues[dj].createdAt)
  {
    hide AnyActive;
    TwoEvents(s, dj, a, b);
    TwoEvents(s, dj, b, a);
    var x, y := Indexed(s, [Heard(dj, a), Heard(dj, b)]).queues, Indexed(s, [Heard(dj, b), Heard(dj, a)]).queues;
    assert dj in x && dj in y;
    assert x == s.queues[dj := x[dj]] && y == s.queues[dj := y[dj]];
  }

  lemma TwoEvents(s: Club, dj: string, a: QueueEvent, b: QueueEvent)
    ensures Indexed(s, [Heard(dj, a), Heard(dj, b)]) == QueueIndexed(QueueIndexed(s, dj, a), dj, b)
  {
    hide QueueIndexed;
    var es := [Heard(dj, a), Heard(dj, b)];
    assert es[..1] == [Heard(dj, a)] && es[..1][..0] == [];
    assert Indexed(s, es[..1]) == QueueIndexed(s, dj, a);
  }
}
