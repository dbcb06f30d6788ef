/**
 Which sessions the connection manager lists as the clients of a target.
 */
module Sessions {
  import opened ConnectionManagement
  import opened Protocol
  import opened ProtocolInvariant

  /** Is h a connect handler of this target whose session is saved and still open? */
  predicate Open(sys: Sys, h: Conn, t: string) {
    h in sys.handlers && sys.handlers[h].Connecting? && sys.handlers[h].target == t && sys.handlers[h].cpc.Blocked?
  }

  /** Was it so at any point of the run? */
  ghost predicate WasOpen(sys: Sys, events: seq<Event>, h: Conn, t: string) {
    exists n :: 0 <= n <= |events| && Open(Run(sys, events[..n]), h, t)
  }

  predicate EachOnce(list: seq<Conn>) {
    forall i, j :: 0 <= i < j < |list| ==> list[i] != list[j]
  }

  /** Listed handlers are past their save, each is listed once, and no open one is missing. */
  ghost predicate ListsOk(sys: Sys, t: string) {
    var list := ClientsOf(sys.shared.clients, t);
    && EachOnce(list)
    && (forall h :: h in list ==>
          h in sys.handlers && sys.handlers[h].Connecting? && sys.handlers[h].target == t
          && (sys.handlers[h].cpc.Blocked? || sys.handlers[h].cpc.Stopped?))
    && (forall h :: Open(sys, h, t) ==> h in list)
  }

  lemma HandlerStepClients(s: Shared, h: Conn, handler: Handler, a: Answer)
    ensures HandlerStep(s, h, handler, a).0.clients ==
      if handler.Connecting? && handler.cpc.Save? then AddClient(s.clients, handler.target, h) else s.clients
  {
  }

  /** Only saving a session changes a list, and it adds that session. */
  lemma StepClients(sys: Sys, ev: Event, t: string)
    ensures var before, after := ClientsOf(sys.shared.clients, t), ClientsOf(Step(sys, ev).shared.clients, t);
            if ev.Answered? && Enabled(sys, ev) && sys.handlers[ev.h].Connecting? && sys.handlers[ev.h].target == t
               && sys.handlers[ev.h].cpc.Save?
            then after == before + [ev.h] && Open(Step(sys, ev), ev.h, t)
            else after == before
  {
    if ev.Answered? && Enabled(sys, ev) {
      HandlerStepClients(sys.shared, ev.h, sys.handlers[ev.h], ev.answer);
    }
  }

  /** Nobody else becomes open, and who is listed stays past its save. */
  lemma StepHandlers(sys: Sys, ev: Event, h: Conn, t: string)
    requires h in Step(sys, ev).handlers
    ensures var before, after := sys.handlers, Step(sys, ev).handlers[h];
            && (Open(Step(sys, ev), h, t) ==>
                  Open(sys, h, t) || (ev == Answered(h, ev.answer) && Enabled(sys, ev) && before[h].Connecting?
                                      && before[h].target == t && before[h].cpc.Save?))
            && (h in before && before[h].Connecting? && (before[h].cpc.Blocked? || before[h].cpc.Stopped?) ==>
                  after.Connecting? && after.target == before[h].target && (after.cpc.Blocked? || after.cpc.Stopped?))
  {
  }

  lemma StepListsOk(sys: Sys, ev: Event, t: string)
    requires ListsOk(sys, t)
    ensures ListsOk(Step(sys, ev), t)
    ensures forall h :: h in ClientsOf(Step(sys, ev).shared.clients, t) <==>
              h in ClientsOf(sys.shared.clients, t) || Open(Step(sys, ev), h, t)
  {
    StepClients(sys, ev, t);
    forall h | h in Step(sys, ev).handlers
      ensures Open(Step(sys, ev), h, t) ==> h in ClientsOf(Step(sys, ev).shared.clients, t)
      ensures h in ClientsOf(sys.shared.clients, t) ==>
        var after := Step(sys, ev).handlers[h];
        after.Connecting? && after.target == t && (after.cpc.Blocked? || after.cpc.Stopped?)
    {
      StepHandlers(sys, ev, h, t);
    }
  }

  /** In every run, the clients listed for a target are exactly the sessions ever saved for it, each once. */
  lemma {:induction false} ClientsAreTheSaved(sys: Sys, events: seq<Event>, t: string)
    requires Starts(sys)
    ensures ListsOk(Run(sys, events), t)
    ensures forall h :: h in ClientsOf(Run(sys, events).shared.clients, t) <==> WasOpen(sys, events, h, t)
    decreases |events|
  {
    if events == [] {
      assert events[..0] == [];
    } else {
      var front := events[..|events| - 1];
      ClientsAreTheSaved(sys, front, t);
      StepListsOk(Run(sys, front), events[|events| - 1], t);
      forall h
        ensures WasOpen(sys, events, h, t) <==> WasOpen(sys, front, h, t) || Open(Run(sys, events), h, t)
      {
        WasOpenGrows(sys, events, h, t);
      }
    }
  }

  lemma WasOpenGrows(sys: Sys, events: seq<Event>, h: Conn, t: string)
    requires events != []
    ensures WasOpen(sys, events, h, t) <==>
      WasOpen(sys, events[..|events| - 1], h, t) || Open(Run(sys, events), h, t)
  {
    var front := events[..|events| - 1];
    assert forall n :: 0 <= n <= |front| ==> events[..n] == front[..n];
    assert events[..|events|] == events;
    if WasOpen(sys, front, h, t) {
      var n :| 0 <= n <= |front| && Open(Run(sys, front[..n]), h, t);
      assert Open(Run(sys, events[..n]), h, t);
    }
    if WasOpen(sys, events, h, t) {
      var n :| 0 <= n <= |events| && Open(Run(sys, events[..n]), h, t);
      if n < |events| {
        assert Open(Run(sys, front[..n]), h, t);
      }
    }
  }
}
