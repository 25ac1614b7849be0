/** The three copies of the permit protocol: the release mutations, the
    candidate registration and the source save. */
module GuardedEffects {
  import opened Wrappers
  import opened Effects

  datatype ResultState = ResultSucceeded | ResultFailed | ResultUnknown | ResultDenied | ResultConflict

  datatype EffectResult = EffectResult(state: ResultState, effect: nat)

  /** Why a call ended without a result: Control could not be asked, the port's
      answer was lost or could not be read, Control could not record. */
  datatype CallError = ControlUnavailable | PortUnavailable | Crashed

  /** A result is true of the ports: success means the port recorded that this
      command's effect took place (and, for a release mutation, answered with a
      receipt that binds it), denial that nothing was sent. */
  ghost predicate TrueReport(w: World, command: Command, r: EffectResult) {
    && command in w.commands && w.commands[command] == r.effect
    && (r.state.ResultSucceeded? ==> TookPlace(w, command))
    && (r.state.ResultConflict? ==> r.effect in w.records && !w.records[r.effect].happened)
    && (r.state.ResultFailed? ==> r.effect in w.records)
    && (r.state.ResultDenied? ==> w.sends[r.effect] == 0)
  }

  /** The port recorded the command's effect and, for a release mutation, answered
      with a receipt that binds it. */
  ghost predicate TookPlace(w: World, command: Command) {
    && command in w.commands && w.commands[command] in w.records
    && w.records[w.commands[command]].happened
    && (command.kind.Candidate? || command.kind.Save? || w.records[w.commands[command]].binds)
  }

  /** The result of a release mutation and what Control is told about it. A
      receipt that does not bind is a failed target of an effect that took place.
      served is whether the destination serves the published bytes right now. */
  function Settle(kind: Kind, a: Answer, served: bool): (ResultState, EffectState) {
    match kind
    case Review => (if a.binds then ResultSucceeded else ResultFailed, Succeeded)
    case Publication =>
      if !a.happened then (ResultFailed, Failed)
      else (if a.binds && served then ResultSucceeded else ResultFailed, Succeeded)
    case _ =>
      if a.conflict && !a.happened then (ResultConflict, Failed)
      else if !a.happened then (ResultFailed, Failed)
      else (if a.binds then ResultSucceeded else ResultFailed, Succeeded)
  }

  /** A release mutation; served says whether the destination serves the published
      bytes when the call reads them back. It sends only with a permit this very call obtained,
      so a command some call prepared before is only ever queried. */
  method Guarded(ports: Ports, command: Command, served: bool) returns (r: Result<EffectResult, CallError>, sent: bool)
    requires Sound(ports.w) && !command.kind.Candidate? && !command.kind.Save?
    modifies ports
    ensures Sound(ports.w) && Later(old(ports.w), ports.w)
    ensures ports.sent == old(ports.sent) + (if sent then [command] else [])
    ensures sent ==> command !in old(ports.w).commands && command in ports.w.commands
    ensures r.Ok? ==> TrueReport(ports.w, command, r.value)
    // A permit this call was answered is used, unless the call died first.
    ensures r != Err(Crashed) ==> |ports.sent| - |old(ports.sent)| == ports.permits - old(ports.permits)
    // Unknown means that the port answered nothing; any other result but a denial
    // is what its answer settles.
    ensures r.Ok? && r.value.state.ResultUnknown? ==> ports.seen.None?
    ensures r.Ok? && !r.value.state.ResultUnknown? && !r.value.state.ResultDenied? ==>
              ports.seen.Some? && r.value.state == Settle(command.kind, ports.seen.value, served).0
    // What the port answered is what it recorded for the command.
    ensures r.Ok? && ports.seen.Some? ==> r.value.effect in ports.w.records && ports.w.records[r.value.effect] == ports.seen.value
  {
    hide Sound, Later;
    ghost var w0 := ports.w;
    sent := false;
    var p := ports.PrepareEffect(command);
    ghost var w1 := ports.w;
    var crashed: bool := *;
    if p.Err? || crashed {
      return Err(if p.Err? then ControlUnavailable else Crashed), sent;
    }
    var permit := p.value;
    if permit.state.Denied? {
      DeniedIsNeverSent(w1, permit.effect);
      return Ok(EffectResult(ResultDenied, permit.effect)), sent;
    }
    var answer: Answer;
    if permit.permitted {
      sent := true;
      var a := ports.SendToPort(command, permit.effect);
      ghost var w2 := ports.w;
      LaterTrans(w0, w1, w2);
      Stays(w1, w2, command);
      if a.Err? {
        // The mutation may have happened: recorded unknown, never resent.
        var ok := ports.ObserveEffect(permit.effect, Unknown);
        LaterTrans(w0, w2, ports.w);
        Stays(w2, ports.w, command);
        if !ok {
          return Err(ControlUnavailable), sent;
        }
        return Ok(EffectResult(ResultUnknown, permit.effect)), sent;
      }
      answer := a.value;
    } else {
      var a := ports.Query(permit.effect);
      ghost var w2 := ports.w;
      LaterTrans(w0, w1, w2);
      Stays(w1, w2, command);
      if a.Err? {
        return Err(PortUnavailable), sent;
      }
      if a.value.None? {
        return Ok(EffectResult(ResultUnknown, permit.effect)), sent;
      }
      answer := a.value.value;
    }
    ghost var w3 := ports.w;
    var (state, outcome) := Settle(command.kind, answer, served);
    if command.kind.Review? {
      ReviewHappened(w3, command, answer);
    }
    if !permit.state.Succeeded? && !permit.state.Failed? {
      var ok := ports.ObserveEffect(permit.effect, outcome);
      LaterTrans(w0, w3, ports.w);
      Stays(w3, ports.w, command);
      RecordStays(w3, ports.w, permit.effect);
      if !ok {
        return Err(ControlUnavailable), sent;
      }
    }
    return Ok(EffectResult(state, permit.effect)), sent;
  }

  /** The candidate registration. */
  method RegisterCandidate(ports: Ports, command: Command) returns (r: Result<EffectResult, CallError>, sent: bool)
    requires Sound(ports.w) && command.kind.Candidate?
    modifies ports
    ensures Sound(ports.w) && Later(old(ports.w), ports.w)
    ensures ports.sent == old(ports.sent) + (if sent then [command] else [])
    ensures sent ==> command !in old(ports.w).commands && command in ports.w.commands
    ensures r.Ok? ==> TrueReport(ports.w, command, r.value)
    // A permit this call was answered is used, unless the call died first.
    ensures r != Err(Crashed) ==> |ports.sent| - |old(ports.sent)| == ports.permits - old(ports.permits)
    ensures r.Ok? && r.value.state.ResultUnknown? ==> ports.seen.None?
    ensures r.Ok? && ports.seen.Some? ==> r.value.state == if ports.seen.value.happened then ResultSucceeded else ResultFailed
  {
    hide Sound, Later;
    ghost var w0 := ports.w;
    sent := false;
    var p := ports.PrepareEffect(command);
    ghost var w1 := ports.w;
    var crashed: bool := *;
    if p.Err? || crashed {
      return Err(if p.Err? then ControlUnavailable else Crashed), sent;
    }
    var permit := p.value;
    var answer: Answer;
    if permit.permitted {
      sent := true;
      var a := ports.SendToPort(command, permit.effect);
      LaterTrans(w0, w1, ports.w);
      Stays(w1, ports.w, command);
      if a.Err? {
        // The send may have happened: the effect stays unresolved for the query.
        return Err(PortUnavailable), sent;
      }
      answer := a.value;
    } else {
      match permit.state
      case Denied =>
        DeniedIsNeverSent(w1, permit.effect);
        return Ok(EffectResult(ResultDenied, permit.effect)), sent;
      case Succeeded =>
        SettledIsRecorded(w1, permit.effect);
        return Ok(EffectResult(ResultSucceeded, permit.effect)), sent;
      case Failed =>
        SettledIsRecorded(w1, permit.effect);
        return Ok(EffectResult(ResultFailed, permit.effect)), sent;
      case _ =>
        var a := ports.Query(permit.effect);
        LaterTrans(w0, w1, ports.w);
        Stays(w1, ports.w, command);
        if a.Err? {
          return Err(PortUnavailable), sent;
        }
        if a.value.None? {
          return Ok(EffectResult(ResultUnknown, permit.effect)), sent;
        }
        answer := a.value.value;
    }
    ghost var w3 := ports.w;
    var ok := ports.ObserveEffect(permit.effect, if answer.happened then Succeeded else Failed);
    LaterTrans(w0, w3, ports.w);
    Stays(w3, ports.w, command);
    RecordStays(w3, ports.w, permit.effect);
    if !ok {
      return Err(ControlUnavailable), sent;
    }
    return Ok(EffectResult(if answer.happened then ResultSucceeded else ResultFailed, permit.effect)), sent;
  }

  /** The source save: saved, or a conflict that names the current revision. */
  method SaveSource(ports: Ports, command: Command) returns (r: Result<EffectResult, CallError>, sent: bool)
    requires Sound(ports.w) && command.kind.Save?
    modifies ports
    ensures Sound(ports.w) && Later(old(ports.w), ports.w)
    ensures ports.sent == old(ports.sent) + (if sent then [command] else [])
    ensures sent ==> command !in old(ports.w).commands && command in ports.w.commands
    ensures r.Ok? ==> TrueReport(ports.w, command, r.value)
    // A permit this call was answered is used, unless the call died first.
    ensures r != Err(Crashed) ==> |ports.sent| - |old(ports.sent)| == ports.permits - old(ports.permits)
    ensures r.Ok? && r.value.state.ResultUnknown? ==> ports.seen.None?
    ensures r.Ok? && !r.value.state.ResultUnknown? && !r.value.state.ResultDenied? ==>
              ports.seen.Some? && r.value.state == if ports.seen.value.happened then ResultSucceeded else ResultConflict
  {
    hide Sound, Later;
    ghost var w0 := ports.w;
    sent := false;
    var p := ports.PrepareEffect(command);
    ghost var w1 := ports.w;
    var crashed: bool := *;
    if p.Err? || crashed {
      return Err(if p.Err? then ControlUnavailable else Crashed), sent;
    }
    var permit := p.value;
    var answer: Answer;
    if permit.permitted {
      sent := true;
      var a := ports.SendToPort(command, permit.effect);
      LaterTrans(w0, w1, ports.w);
      Stays(w1, ports.w, command);
      if a.Err? {
        return Err(PortUnavailable), sent;
      }
      answer := a.value;
    } else {
      if permit.state.Denied? {
        DeniedIsNeverSent(w1, permit.effect);
        return Ok(EffectResult(ResultDenied, permit.effect)), sent;
      }
      // Permitted earlier, settled or unknown: the original identity answers.
      var a := ports.Query(permit.effect);
      LaterTrans(w0, w1, ports.w);
      Stays(w1, ports.w, command);
      if a.Err? {
        return Err(PortUnavailable), sent;
      }
      if a.value.None? {
        return Ok(EffectResult(ResultUnknown, permit.effect)), sent;
      }
      answer := a.value.value;
    }
    r := Ok(EffectResult(if answer.happened then ResultSucceeded else ResultConflict, permit.effect));
    if permit.permitted || !(permit.state.Succeeded? || permit.state.Failed?) {
      ghost var w3 := ports.w;
      var ok := ports.ObserveEffect(permit.effect, if answer.happened then Succeeded else Failed);
      LaterTrans(w0, w3, ports.w);
      Stays(w3, ports.w, command);
      RecordStays(w3, ports.w, permit.effect);
      if !ok {
        r := Err(ControlUnavailable);
      }
    }
  }

  /** Any number of calls of one command, however each of them ended: at most
      one of them sent, and the last result, if there is one, is true. */
  method Retried(ports: Ports, command: Command, calls: nat) returns (results: seq<Result<EffectResult, CallError>>, sends: nat)
    requires Sound(ports.w)
    modifies ports
    ensures Sound(ports.w) && Later(old(ports.w), ports.w)
    ensures ports.sent == old(ports.sent) + (if sends == 1 then [command] else [])
    ensures sends <= 1 && (command in old(ports.w).commands ==> sends == 0)
    ensures sends == 1 ==> command in ports.w.commands
    ensures forall i :: 0 <= i < |results| && results[i].Ok? ==>
              && command in ports.w.commands
              && (results[i].value.state.ResultSucceeded? ==> TookPlace(ports.w, command))
  {
    hide Sound, Later;
    results, sends := [], 0;
    LaterSelf(ports.w);
    var i := 0;
    while i < calls
      invariant Sound(ports.w) && Later(old(ports.w), ports.w)
      invariant ports.sent == old(ports.sent) + (if sends == 1 then [command] else [])
      invariant sends <= 1 && (command in old(ports.w).commands ==> sends == 0)
      invariant sends == 1 ==> command in ports.w.commands
      invariant forall k :: 0 <= k < |results| && results[k].Ok? ==>
                  && command in ports.w.commands
                  && (results[k].value.state.ResultSucceeded? ==> TookPlace(ports.w, command))
    {
      ghost var before := ports.w;
      var r, sent;
      match command.kind {
        case Candidate => r, sent := RegisterCandidate(ports, command);
        case Save => r, sent := SaveSource(ports, command);
        case _ =>
          var served: bool := *;
          r, sent := Guarded(ports, command, served);
      }
      LaterTrans(old(ports.w), before, ports.w);
      Stays(before, ports.w, command);
      Stays(old(ports.w), before, command);
      if command in before.commands {
        RecordStays(before, ports.w, before.commands[command]);
      }
      results := results + [r];
      sends := sends + if sent then 1 else 0;
      i := i + 1;
    }
  }

  /** Two calls of one command that both settle, whatever other attempts and the
      port do around them: they report the same state unless the effect is a
      publication that took place under a receipt that binds, and its destination
      served the bytes to one of them only. Then the two reports differ. */
  method AskedTwice(ports: Ports, command: Command, first: bool, second: bool)
    returns (r: Result<EffectResult, CallError>, q: Result<EffectResult, CallError>)
    requires Sound(ports.w) && !command.kind.Candidate? && !command.kind.Save?
    modifies ports
    ensures Sound(ports.w) && Later(old(ports.w), ports.w)
    ensures Settles(r) && Settles(q) ==>
              && r.value.effect == q.value.effect && q.value.effect in ports.w.records
              && (r.value.state != q.value.state <==>
                   && command.kind.Publication? && first != second
                   && ports.w.records[q.value.effect].happened && ports.w.records[q.value.effect].binds)
  {
    hide Sound, Later;
    ghost var w0 := ports.w;
    var sent;
    r, sent := Guarded(ports, command, first);
    ghost var w1 := ports.w;
    q, sent := Guarded(ports, command, second);
    LaterTrans(w0, w1, ports.w);
    Stays(w1, ports.w, command);
    if r.Ok? {
      RecordStays(w1, ports.w, r.value.effect);
    }
  }

  /** The call reports what the port answered. */
  predicate Settles(r: Result<EffectResult, CallError>) {
    r.Ok? && !r.value.state.ResultUnknown? && !r.value.state.ResultDenied?
  }

  lemma DeniedIsNeverSent(w: World, effect: nat)
    requires Sound(w) && effect in w.states && w.states[effect].Denied?
    ensures w.sends[effect] == 0
  {
    assert effect !in w.sends;
  }

  lemma SettledIsRecorded(w: World, effect: nat)
    requires Sound(w) && effect in w.states && (w.states[effect].Succeeded? || w.states[effect].Failed?)
    ensures effect in w.records && (w.records[effect].happened <==> w.states[effect].Succeeded?)
  {
  }

  lemma ReviewHappened(w: World, command: Command, a: Answer)
    requires Sound(w) && command in w.commands && w.commands[command] in w.records
    requires w.records[w.commands[command]] == a && command.kind.Review?
    ensures a.happened
  {
  }
}
