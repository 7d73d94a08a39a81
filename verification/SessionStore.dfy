/** The session store (src/pg/session_store.cpp): at most `max_sessions_` connections, each pinned to a session id. */
module SessionStore {
  import opened Common

  type Conn = nat
  type Sessions = map<string, Conn>

  const LIMIT_MESSAGE := "session limit exceeded"

  /** What GetOrCreate returns: a connection, a null pointer with an error text, or a null pointer alone. */
  datatype Answer = Got(conn: Conn) | Refused(message: string) | NoSession

  /** A call, with what its connection would answer to IsHealthy and what connecting would yield, if they are asked. */
  datatype Step = Get(id: string, healthy: bool, connect: Result<Conn, string>) | CloseAll

  /** The sessions that are left when GetOrCreate looks for room: an unhealthy one of the same id is gone. */
  function Kept(sessions: Sessions, id: string): Sessions {
    sessions - {id}
  }

  /** GetOrCreate hands out the connection it finds. */
  predicate Finds(sessions: Sessions, step: Step) {
    step.Get? && step.id != "" && step.id in sessions && step.healthy
  }

  /** GetOrCreate gets as far as making a connection for the id, and succeeds. */
  predicate Makes(sessions: Sessions, max: int, step: Step) {
    && step.Get? && step.id != "" && !Finds(sessions, step)
    && |Kept(sessions, step.id)| < max && step.connect.Ok?
  }

  function AnswerTo(sessions: Sessions, max: int, step: Step): Answer {
    if step.CloseAll? || step.id == "" then NoSession
    else if Finds(sessions, step) then Got(sessions[step.id])
    else if Makes(sessions, max, step) then Got(step.connect.value)
    else if |Kept(sessions, step.id)| >= max then Refused(LIMIT_MESSAGE)
    else Refused(step.connect.error)
  }

  function Next(sessions: Sessions, max: int, step: Step): Sessions {
    if step.CloseAll? then map[]
    else if step.id == "" || Finds(sessions, step) then sessions
    else if Makes(sessions, max, step) then sessions[step.id := step.connect.value]
    else Kept(sessions, step.id)
  }

  class SessionStore {
    var sessions: Sessions
    const maxSessions: int

    constructor (max: int)
      ensures sessions == map[] && maxSessions == (if max > 0 then max else 1)
    {
      sessions := map[];
      maxSessions := if max > 0 then max else 1;
    }

    method GetOrCreate(id: string, healthy: bool, connect: Result<Conn, string>) returns (answer: Answer)
      modifies this
      ensures sessions == Next(old(sessions), maxSessions, Get(id, healthy, connect))
      ensures answer == AnswerTo(old(sessions), maxSessions, Get(id, healthy, connect))
      ensures answer.Got? <==> id != "" && id in sessions && sessions[id] == answer.conn
      ensures forall other :: other != id ==> (other in sessions <==> other in old(sessions))
      ensures forall other :: other != id && other in sessions ==> sessions[other] == old(sessions)[other]
    {
      if id == "" {
        return NoSession;
      }
      if id in sessions {
        if healthy {
          return Got(sessions[id]);
        }
        sessions := sessions - {id};
      } else {
        assert sessions == Kept(sessions, id);
      }
      if |sessions| >= maxSessions {
        return Refused(LIMIT_MESSAGE);
      }
      match connect
      case Err(error) =>
        return Refused(error);
      case Ok(conn) =>
        sessions := sessions[id := conn];
        return Got(conn);
    }

    method CloseAll()
      modifies this
      ensures sessions == Next(old(sessions), maxSessions, Step.CloseAll) == map[]
    {
      sessions := map[];
    }
  }

  // ----- Runs -----

  /** A history of the store: calls are serialised by its mutex. */
  ghost predicate Run(states: seq<Sessions>, max: int, steps: seq<Step>) {
    && |states| == |steps| + 1
    && states[0] == map[]
    && (forall i :: 0 <= i < |steps| ==> Moves(states, max, i, steps[i]))
  }

  predicate Moves(states: seq<Sessions>, max: int, i: nat, step: Step)
    requires i + 1 < |states|
  {
    states[i + 1] == Next(states[i], max, step)
  }

  lemma StepBounded(sessions: Sessions, max: int, step: Step)
    requires max >= 1 && |sessions| <= max
    ensures |Next(sessions, max, step)| <= max
  {
    if step.Get? {
      var kept := Kept(sessions, step.id);
      assert kept.Keys == sessions.Keys - {step.id};
      assert |kept.Keys| <= |sessions.Keys|;
      if Makes(sessions, max, step) {
        assert sessions[step.id := step.connect.value].Keys == kept.Keys + {step.id};
      }
    }
  }

  /** The map never holds more than `max_sessions_` sessions. */
  lemma {:induction false} SizeBounded(states: seq<Sessions>, max: int, steps: seq<Step>, n: nat)
    requires max >= 1 && Run(states, max, steps) && n <= |steps|
    ensures |states[n]| <= max
  {
    if n > 0 {
      SizeBounded(states, max, steps, n - 1);
      assert Moves(states, max, n - 1, steps[n - 1]);
      hide Next;
      StepBounded(states[n - 1], max, steps[n - 1]);
    }
  }

  /** The limit refuses exactly the ids that have no session, when all places belong to others: an id whose connection
      has gone bad always finds room for a new one. */
  lemma LimitRefusesIff(states: seq<Sessions>, max: int, steps: seq<Step>, n: nat)
    requires max >= 1 && Run(states, max, steps) && n < |steps|
    requires steps[n].Get? && steps[n].id != "" && (steps[n].connect.Err? ==> steps[n].connect.error != LIMIT_MESSAGE)
    ensures AnswerTo(states[n], max, steps[n]) == Refused(LIMIT_MESSAGE) <==>
              steps[n].id !in states[n] && |states[n]| == max
  {
    SizeBounded(states, max, steps, n);
    var s, id := states[n], steps[n].id;
    assert Kept(s, id).Keys == s.Keys - {id};
    if id in s {
      assert |Kept(s, id).Keys| == |s.Keys| - 1;
    } else {
      assert Kept(s, id).Keys == s.Keys;
    }
  }

  /** What every Get of every history gets and leaves behind. A healthy session is handed out again. An unhealthy one is
      replaced: by the new connection, or by nothing when there is none to be had. An id without a session gets a new
      connection if there is room for it. No other session is touched. */
  lemma GetDecides(states: seq<Sessions>, max: int, steps: seq<Step>, n: nat)
    requires max >= 1 && Run(states, max, steps) && n < |steps| && steps[n].Get?
    ensures var id, healthy, connect := steps[n].id, steps[n].healthy, steps[n].connect;
            var before, after, answer := states[n], states[n + 1], AnswerTo(states[n], max, steps[n]);
            && (id == "" ==> answer == NoSession && after == before)
            && (id != "" && id in before && healthy ==> answer == Got(before[id]) && after == before)
            && (id != "" && (if id in before then !healthy else |before| < max) ==>
                  if connect.Ok? then answer == Got(connect.value) && id in after && after[id] == connect.value
                  else answer == Refused(connect.error) && id !in after)
            && (id != "" && id !in before && |before| >= max ==>
                  answer == Refused("session limit exceeded") && id !in after)
            && (forall other :: other != id ==> (other in after <==> other in before))
            && (forall other :: other != id && other in before ==> after[other] == before[other])
  {
    SizeBounded(states, max, steps, n);
    assert Moves(states, max, n, steps[n]);
    var s, id := states[n], steps[n].id;
    assert Kept(s, id).Keys == s.Keys - {id};
    assert id in s ==> |Kept(s, id).Keys| == |s.Keys| - 1;
    assert id !in s ==> Kept(s, id).Keys == s.Keys;
    hide Run;
  }

  /** A step that ends the pinning of `id`: everything is closed, or its connection is found unhealthy. */
  predicate Unpins(step: Step, id: string) {
    step.CloseAll? || (step.id == id && !step.healthy)
  }

  lemma StepPins(sessions: Sessions, max: int, step: Step, id: string)
    ensures var next := Next(sessions, max, step);
            && (id in sessions && !Unpins(step, id) ==> id in next && next[id] == sessions[id])
            && (step.Get? && step.id == id && AnswerTo(sessions, max, step).Got? ==>
                  id != "" && id in next && AnswerTo(sessions, max, step) == Got(next[id]))
            && (step.Get? && step.id == id && id != "" && id in sessions && !Unpins(step, id) ==>
                  AnswerTo(sessions, max, step) == Got(sessions[id]))
  {
  }

  /** Pinning: once a call has been answered with a connection, every later call for that id is answered with the same
      one, until the connection is found unhealthy or everything is closed, whatever the other sessions do. */
  lemma {:induction false} Pinned(states: seq<Sessions>, max: int, steps: seq<Step>, m: nat, n: nat, id: string)
    requires Run(states, max, steps) && m < n < |steps|
    requires steps[m].Get? && steps[m].id == id && AnswerTo(states[m], max, steps[m]).Got?
    requires forall i :: m < i <= n ==> !Unpins(steps[i], id)
    ensures id in states[n] && AnswerTo(states[m], max, steps[m]) == Got(states[n][id])
    ensures steps[n].Get? && steps[n].id == id ==> AnswerTo(states[n], max, steps[n]) == AnswerTo(states[m], max, steps[m])
    decreases n
  {
    hide Next, AnswerTo, Unpins;
    assert Moves(states, max, n - 1, steps[n - 1]);
    StepPins(states[m], max, steps[m], id);
    StepPins(states[n - 1], max, steps[n - 1], id);
    StepPins(states[n], max, steps[n], id);
    if n > m + 1 {
      Pinned(states, max, steps, m, n - 1, id);
    }
  }

  /** Step `i` makes a connection. */
  predicate MakesAt(states: seq<Sessions>, max: int, steps: seq<Step>, i: nat)
    requires |states| == |steps| + 1 && i < |steps|
    ensures MakesAt(states, max, steps, i) ==> steps[i].Get?
  {
    Makes(states[i], max, steps[i])
  }

  /** Every connection made is a new one. */
  ghost predicate FreshConnects(states: seq<Sessions>, max: int, steps: seq<Step>)
    requires |states| == |steps| + 1
  {
    forall i, j :: 0 <= i < j < |steps| && MakesAt(states, max, steps, i) && MakesAt(states, max, steps, j) ==>
      steps[i].connect != steps[j].connect
  }

  /** Step `i` made connection `conn` for `id`. */
  ghost predicate MadeFor(states: seq<Sessions>, max: int, steps: seq<Step>, i: nat, id: string, conn: Conn)
    requires |states| == |steps| + 1
  {
    i < |steps| && MakesAt(states, max, steps, i) && steps[i].id == id && steps[i].connect == Ok(conn)
  }

  lemma StepOrigin(sessions: Sessions, max: int, step: Step, id: string)
    requires id in Next(sessions, max, step)
    ensures var conn := Next(sessions, max, step)[id];
            || (id in sessions && sessions[id] == conn)
            || (Makes(sessions, max, step) && step.id == id && step.connect == Ok(conn))
  {
  }

  lemma {:induction false} Origin(states: seq<Sessions>, max: int, steps: seq<Step>, n: nat, id: string) returns (i: nat)
    requires Run(states, max, steps) && n <= |steps| && id in states[n]
    ensures i < n && MadeFor(states, max, steps, i, id, states[n][id])
  {
    hide Next, Makes;
    assert Moves(states, max, n - 1, steps[n - 1]);
    StepOrigin(states[n - 1], max, steps[n - 1], id);
    if id !in states[n - 1] || states[n - 1][id] != states[n][id] {
      i := n - 1;
    } else {
      i := Origin(states, max, steps, n - 1, id);
    }
  }

  lemma AnswerOrigin(states: seq<Sessions>, max: int, steps: seq<Step>, n: nat) returns (i: nat)
    requires Run(states, max, steps) && n < |steps| && AnswerTo(states[n], max, steps[n]).Got?
    ensures MadeFor(states, max, steps, i, steps[n].id, AnswerTo(states[n], max, steps[n]).conn)
  {
    if Finds(states[n], steps[n]) {
      i := Origin(states, max, steps, n, steps[n].id);
    } else {
      i := n;
    }
  }

  /** Separation: if every connect yields a new connection, two sessions are never given the same one, at any two points
      of the history. */
  lemma NeverShared(states: seq<Sessions>, max: int, steps: seq<Step>, m: nat, n: nat)
    requires Run(states, max, steps) && FreshConnects(states, max, steps) && m < |steps| && n < |steps|
    requires AnswerTo(states[m], max, steps[m]).Got? && AnswerTo(states[n], max, steps[n]).Got?
    requires steps[m].id != steps[n].id
    ensures AnswerTo(states[m], max, steps[m]) != AnswerTo(states[n], max, steps[n])
  {
    var i := AnswerOrigin(states, max, steps, m);
    var j := AnswerOrigin(states, max, steps, n);
    assert i != j;
  }
}
