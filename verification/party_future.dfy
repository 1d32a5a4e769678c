/** block_party's future and its one-shot mailbox, polled while the worker answers it. */
module PartyFuture {
  import opened Counting

  /** The sending half: still in the future; with the worker; inside send_mail before the write,
      before the flag, before the wake; done. */
  datatype Sender<O> = WithFuture | WithWorker | Writing(output: O) | Publishing | Waking | Sent

  /** `slot` is the AtomicWaker: the poll whose waker it holds; `woken` says whether the waker of
      the latest poll has been called.  Histories: `answer`, what send_mail was called with;
      `writes`, how often the cell was written. */
  datatype Mailbox<O> = Mailbox(
    hasOutput: bool, cell: Option<O>, slot: Option<nat>, woken: bool, polls: nat,
    sender: Sender<O>, answer: Option<O>, writes: nat)

  datatype PollResult<O> = Ready(output: O) | Pending | Panicked

  /** The worker's next action on this mailbox; `output` is what the task produced. */
  function SenderStep<O>(m: Mailbox<O>, output: O): Mailbox<O> {
    match m.sender
    case WithFuture => m
    case Sent => m
    case WithWorker => m.(sender := Writing(output), answer := Some(output))
    case Writing(o) => m.(cell := Some(o), writes := m.writes + 1, sender := Publishing)
    case Publishing => m.(hasOutput := true, sender := Waking)
    case Waking => m.(woken := m.woken || m.slot == Some(m.polls), slot := None, sender := Sent)
  }

  function SenderSteps<O>(m: Mailbox<O>, outputs: seq<O>): Mailbox<O>
    decreases |outputs|
  {
    if outputs == [] then m else SenderSteps(SenderStep(m, outputs[0]), outputs[1..])
  }

  /** The cell is written once, before the flag, with the answer. */
  ghost predicate InOrder<O>(m: Mailbox<O>) {
    match m.sender
    case WithFuture => !m.hasOutput && m.cell == None && m.answer == None && m.writes == 0
    case WithWorker => !m.hasOutput && m.cell == None && m.answer == None && m.writes == 0
    case Writing(o) => !m.hasOutput && m.cell == None && m.answer == Some(o) && m.writes == 0
    case Publishing => !m.hasOutput && m.cell == m.answer && m.cell.Some? && m.writes == 1
    case _ => m.hasOutput && m.cell == m.answer && m.cell.Some? && m.writes == 1
  }

  ghost predicate Armed<O>(m: Mailbox<O>) {
    m.woken || m.slot == Some(m.polls)
  }

  /** A future left pending is woken once the answer is there. */
  ghost predicate WillWake<O>(m: Mailbox<O>) {
    Armed(m) && (m.hasOutput ==> m.woken || m.sender.Waking?)
  }

  ghost predicate Keeps<O>(m: Mailbox<O>, m': Mailbox<O>) {
    && InOrder(m') && m'.polls == m.polls
    && (m.sender.WithFuture? <==> m'.sender.WithFuture?)
    && (m.hasOutput ==> m'.hasOutput) && (m.answer.Some? ==> m'.answer == m.answer)
    && (Armed(m) <==> Armed(m')) && (Armed(m) && !m.hasOutput ==> WillWake(m'))
    && (WillWake(m) ==> WillWake(m'))
  }

  lemma SenderStepKeeps<O>(m: Mailbox<O>, output: O)
    requires InOrder(m)
    ensures Keeps(m, SenderStep(m, output))
  {
  }

  lemma {:induction false} SenderStepsKeep<O>(m: Mailbox<O>, outputs: seq<O>)
    requires InOrder(m)
    ensures Keeps(m, SenderSteps(m, outputs))
    decreases |outputs|
  {
    if outputs != [] {
      SenderStepKeeps(m, outputs[0]);
      SenderStepsKeep(SenderStep(m, outputs[0]), outputs[1..]);
    }
  }

  /** The worker's four actions: what the task produced is in the cell before the flag is set, and the flag is set
      before the waker is called, if it is registered. */
  lemma SenderDelivers<O>(m: Mailbox<O>, output: O, a: O, b: O, d: O)
    requires InOrder(m) && m.sender.WithWorker?
    ensures var m1 := SenderStep(m, output); var m2 := SenderStep(m1, a); var m3 := SenderStep(m2, b); var m4 := SenderStep(m3, d);
            && m1.answer == Some(output) && m1.cell == None
            && m2.cell == Some(output) && !m2.hasOutput
            && m3.hasOutput && m3.woken == m.woken && m3.slot == m.slot
            && m4.sender.Sent? && m4.slot == None && (m4.woken <==> m.woken || m.slot == Some(m.polls))
            && m4 == m3.(woken := m4.woken, slot := None, sender := Sent)
            && SenderSteps(m, [output, a, b, d]) == m4
  {
    FourSteps(m, output, a, b, d);
    hide SenderSteps;
  }

  lemma FourSteps<O>(m: Mailbox<O>, output: O, a: O, b: O, d: O)
    ensures SenderSteps(m, [output, a, b, d]) == SenderStep(SenderStep(SenderStep(SenderStep(m, output), a), b), d)
  {
    hide SenderStep;
    var m1 := SenderStep(m, output);
    var m2 := SenderStep(m1, a);
    var m3 := SenderStep(m2, b);
    assert [output, a, b, d][1..] == [a, b, d] && [a, b, d][1..] == [b, d] && [b, d][1..] == [d] && [d][1..] == [];
    assert SenderSteps(m3, [d]) == SenderSteps(SenderStep(m3, d), []) == SenderStep(m3, d);
    assert SenderSteps(m2, [b, d]) == SenderSteps(m3, [d]);
    assert SenderSteps(m1, [a, b, d]) == SenderSteps(m2, [b, d]);
    assert SenderSteps(m, [output, a, b, d]) == SenderSteps(m1, [a, b, d]);
  }

  /** When the worker is done with a pending future's mailbox, the future has been woken. */
  lemma AnsweredIsWoken<O>(m: Mailbox<O>, outputs: seq<O>)
    requires InOrder(m) && WillWake(m) && SenderSteps(m, outputs).sender.Sent?
    ensures SenderSteps(m, outputs).woken && SenderSteps(m, outputs).cell == SenderSteps(m, outputs).answer
  {
    SenderStepsKeep(m, outputs);
  }

  function OutputsAt<O>(script: seq<seq<O>>, k: nat): seq<O> {
    if k < |script| then script[k] else []
  }

  /** What a poll leaves of the mailbox: the first hands its sender to the worker, under its waker; a later one
      registers, if it finds no output, between two looks. */
  function Polled<O>(m: Mailbox<O>, first: bool, script: seq<seq<O>>): Mailbox<O> {
    var begun := m.(polls := m.polls + 1, woken := false);
    if first then SenderSteps(begun.(slot := Some(begun.polls), sender := WithWorker), OutputsAt(script, 0))
    else
      var looked := SenderSteps(begun, OutputsAt(script, 0));
      if looked.hasOutput then looked
      else
        var before := SenderSteps(looked, OutputsAt(script, 1));
        SenderSteps(before.(slot := Some(before.polls)), OutputsAt(script, 2))
  }

  class Future<O> {
    var task: bool     // the task has not been submitted yet
    var read: bool
    var mail: Mailbox<O>
    var taken: nat     // how often an output was taken out

    ghost predicate Valid() reads this {
      && InOrder(mail) && (task <==> mail.sender.WithFuture?)
      && (!task && !read ==> WillWake(mail))
      && (read ==> mail.hasOutput)
      && taken == (if read then 1 else 0)
    }

    constructor ()
      ensures Valid() && task && !read
    {
      task, read, taken := true, false, 0;
      mail := Mailbox(false, None, None, false, 0, WithFuture, None, 0);
    }

    method Interfere(script: seq<seq<O>>, k: nat)
      requires InOrder(mail)
      modifies this`mail
      ensures Keeps(old(mail), mail) && mail == SenderSteps(old(mail), OutputsAt(script, k))
    {
      var outputs := OutputsAt(script, k);
      SenderStepsKeep(mail, outputs);
      mail := SenderSteps(mail, outputs);
    }

    /** MailboxReceiver::recv_mail; None is Pending. */
    method RecvMail() returns (r: PollResult<O>)
      requires InOrder(mail)
      modifies this`read, this`taken
      ensures r.Pending? <==> !mail.hasOutput
      ensures r.Panicked? <==> mail.hasOutput && old(read)
      ensures r.Ready? ==> mail.answer == Some(r.output) && read && taken == old(taken) + 1
      ensures !r.Ready? ==> read == old(read) && taken == old(taken)
    {
      if !mail.hasOutput { return Pending; }
      if read { return Panicked; }
      read := true;
      taken := taken + 1;
      return Ready(mail.cell.value);
    }

    /** Future::poll, with the worker acting as `script` says between its steps.  It panics exactly
        when its output has been taken already; it is ready with the worker's answer; and left
        pending it will be woken. */
    method Poll(script: seq<seq<O>>) returns (r: PollResult<O>)
      requires Valid()
      modifies this
      ensures Valid() && !task
      ensures r.Panicked? <==> old(read)
      ensures r.Ready? ==> mail.answer == Some(r.output) && mail.writes == 1 && read && !old(read)
      ensures r.Pending? ==> !read && WillWake(mail)
      ensures old(task) ==> r.Pending?
      ensures mail == Polled(old(mail), old(task), script) && mail.polls == old(mail).polls + 1
      ensures r.Pending? && script == [] ==> !mail.woken && mail.slot == Some(mail.polls)
      ensures !old(task) && !old(read) && old(mail).hasOutput ==> r == Ready(old(mail).answer.value)
    {
      mail := mail.(polls := mail.polls + 1, woken := false);
      if task {
        task := false;
        mail := mail.(slot := Some(mail.polls));
        mail := mail.(sender := WithWorker);
        Interfere(script, 0);
        return Pending;
      }
      Interfere(script, 0);
      r := RecvMail();
      if !r.Pending? { return; }
      Interfere(script, 1);
      mail := mail.(slot := Some(mail.polls));
      Interfere(script, 2);
      r := RecvMail();
    }
  }
}
