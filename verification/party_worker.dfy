/** block_party's worker: two parallel vectors, filled from a channel and emptied as tasks
    complete. */
module PartyWorker {
  import opened Counting
  import PartyLaunch

  /** A submitted task with the mailbox of the future that submitted it. */
  datatype Info<T> = Info(task: T, mailbox: nat)

  /** One answer: who was answered, and with what. */
  datatype Answer<T, R> = Answer(info: Info<T>, output: R)

  /** What wait_any reports.  Any number chooses one of the waiting tasks. */
  datatype WakeResult<R> = Completed(choice: nat, output: R) | Sidechannel

  /** One call of wait_any: the tasks it waits on, how many more are in the channel, and the tasks submitted
      and those answered so far. */
  datatype Wait<T> = Wait(tasks: seq<Info<T>>, queued: nat, submitted: seq<Info<T>>, answered: seq<Info<T>>)

  /** What a wait that ends like that answers: the chosen task, with its output, if it completed one. */
  ghost function Reply<T, R>(wait: Wait<T>, result: WakeResult<R>): seq<Answer<T, R>> {
    if result.Sidechannel? || wait.tasks == [] then []
    else [Answer(wait.tasks[result.choice % |wait.tasks|], result.output)]
  }

  /** What a sequence of waits answers, in order. */
  ghost function AnswersOf<T, R>(waits: seq<Wait<T>>, results: seq<WakeResult<R>>): seq<Answer<T, R>>
    requires |waits| == |results|
  {
    if waits == [] then []
    else
      var last := |waits| - 1;
      AnswersOf(waits[..last], results[..last]) + Reply(waits[last], results[last])
  }

  /** The wait is on everything submitted and not yet answered, with nothing left in the channel. */
  ghost predicate Thorough<T>(wait: Wait<T>) {
    && wait.tasks != [] && wait.queued == 0
    && multiset(wait.submitted) == multiset(wait.tasks) + multiset(wait.answered)
  }

  lemma AnswersGrow<T, R>(waits: seq<Wait<T>>, results: seq<WakeResult<R>>, wait: Wait<T>, result: WakeResult<R>)
    requires |waits| == |results|
    ensures AnswersOf(waits + [wait], results + [result]) == AnswersOf(waits, results) + Reply(wait, result)
  {
    hide Reply;
    assert (waits + [wait])[..|waits|] == waits && (results + [result])[..|results|] == results;
  }

  /** The two vectors read as pairs. */
  ghost function Zip<T>(tasks: seq<T>, mailboxes: seq<nat>): (r: seq<Info<T>>)
    requires |tasks| == |mailboxes|
    ensures |r| == |tasks|
  {
    seq(|tasks|, i requires 0 <= i < |tasks| => Info(tasks[i], mailboxes[i]))
  }

  function RemoveAt<A>(s: seq<A>, i: nat): (r: seq<A>)
    requires i < |s|
    ensures |r| == |s| - 1
  {
    s[..i] + s[i + 1..]
  }

  ghost function Infos<T, R>(answers: seq<Answer<T, R>>): (r: seq<Info<T>>)
    ensures |r| == |answers|
  {
    seq(|answers|, i requires 0 <= i < |answers| => answers[i].info)
  }

  ghost function TasksOf<T>(infos: seq<Info<T>>): (r: seq<T>)
    ensures |r| == |infos|
  {
    seq(|infos|, i requires 0 <= i < |infos| => infos[i].task)
  }

  ghost function MailboxesOf<T>(infos: seq<Info<T>>): (r: seq<nat>)
    ensures |r| == |infos|
  {
    seq(|infos|, i requires 0 <= i < |infos| => infos[i].mailbox)
  }

  lemma PartsOfPush<T>(infos: seq<Info<T>>, info: Info<T>)
    ensures TasksOf(infos + [info]) == TasksOf(infos) + [info.task]
    ensures MailboxesOf(infos + [info]) == MailboxesOf(infos) + [info.mailbox]
  {
  }

  /** The oldest message is taken, and then more are submitted. */
  lemma OneTaken<T>(taken: seq<Info<T>>, queued: seq<Info<T>>, first: seq<Info<T>>,
                    start: seq<Info<T>>, before: seq<Info<T>>, after: seq<Info<T>>)
    requires queued != [] && start <= before <= after && taken + queued == first + before[|start|..]
    ensures (taken + [queued[0]]) + (queued[1..] + after[|before|..]) == first + after[|start|..]
  {
    assert queued == [queued[0]] + queued[1..];
    assert (taken + [queued[0]]) + (queued[1..] + after[|before|..]) == (taken + queued) + after[|before|..];
    assert after[|start|..] == before[|start|..] + after[|before|..];
  }

  /** Every future makes its own mailbox: the i-th submission has the i-th. */
  ghost predicate OwnMailboxes<T>(infos: seq<Info<T>>) {
    forall i :: 0 <= i < |infos| ==> infos[i].mailbox == i
  }

  lemma PushPairs<T>(tasks: seq<T>, mailboxes: seq<nat>, info: Info<T>)
    requires |tasks| == |mailboxes|
    ensures Zip(tasks + [info.task], mailboxes + [info.mailbox]) == Zip(tasks, mailboxes) + [info]
  {
  }

  /** Removing the same index from both vectors removes that pair and no other. */
  lemma RemovePairs<T>(tasks: seq<T>, mailboxes: seq<nat>, i: nat)
    requires |tasks| == |mailboxes| && i < |tasks|
    ensures Zip(RemoveAt(tasks, i), RemoveAt(mailboxes, i)) == RemoveAt(Zip(tasks, mailboxes), i)
    ensures multiset(Zip(tasks, mailboxes)) ==
              multiset(RemoveAt(Zip(tasks, mailboxes), i)) + multiset{Info(tasks[i], mailboxes[i])}
  {
    var z := Zip(tasks, mailboxes);
    assert z == z[..i] + [z[i]] + z[i + 1..];
  }

  lemma MailboxTells<T>(all: seq<Info<T>>, front: multiset<Info<T>>, a: Info<T>, back: multiset<Info<T>>, b: Info<T>)
    requires OwnMailboxes(all) && multiset(all) == front + back && a in front && b in back
    ensures a.mailbox != b.mailbox
  {
    if a.mailbox == b.mailbox {
      assert a in multiset(all) && b in multiset(all);
      assert a in all && b in all;
      OnceOnly(all, a);
    }
  }

  lemma OnceOnly<T>(all: seq<Info<T>>, a: Info<T>)
    requires OwnMailboxes(all) && a in all
    ensures a.mailbox < |all| && all[a.mailbox] == a && multiset(all)[a] == 1
  {
    var i := a.mailbox;
    assert all == all[..i] + [a] + all[i + 1..];
    assert a !in all[..i] && a !in all[i + 1..];
  }

  /** The vectors stay aligned; every submitted task is in the channel, in the vectors or answered, once; a
      mailbox holds an output exactly if its own task was answered with it. */
  ghost predicate Consistent<T, R>(channel: seq<Info<T>>, tasks: seq<T>, mailboxes: seq<nat>, posted: map<nat, R>,
                                   submitted: seq<Info<T>>, answers: seq<Answer<T, R>>) {
    && |tasks| == |mailboxes| && |channel| <= PartyLaunch.CAPACITY
    && OwnMailboxes(submitted)
    && multiset(submitted) == multiset(channel) + multiset(Zip(tasks, mailboxes)) + multiset(Infos(answers))
    && PostedRight(posted, answers)
  }

  ghost predicate PostedRight<T, R>(posted: map<nat, R>, answers: seq<Answer<T, R>>) {
    && (forall k :: 0 <= k < |answers| ==> answers[k].info.mailbox in posted && posted[answers[k].info.mailbox] == answers[k].output)
    && (forall b :: b in posted ==> exists k :: 0 <= k < |answers| && answers[k].info.mailbox == b)
  }

  /** A waiting task's mailbox is empty. */
  lemma EmptyMailbox<T, R>(channel: seq<Info<T>>, tasks: seq<T>, mailboxes: seq<nat>, posted: map<nat, R>,
                           submitted: seq<Info<T>>, answers: seq<Answer<T, R>>, idx: nat)
    requires Consistent(channel, tasks, mailboxes, posted, submitted, answers) && idx < |tasks|
    ensures mailboxes[idx] !in posted && Info(tasks[idx], mailboxes[idx]) in submitted
  {
    var info := Info(tasks[idx], mailboxes[idx]);
    assert Zip(tasks, mailboxes)[idx] == info;
    assert info in multiset(submitted);
    if info.mailbox in posted {
      var k :| 0 <= k < |answers| && answers[k].info.mailbox == info.mailbox;
      assert Infos(answers)[k] == answers[k].info;
      MailboxTells(submitted, multiset(channel) + multiset(Zip(tasks, mailboxes)), info, multiset(Infos(answers)), answers[k].info);
    }
  }

  lemma AnsweredKeeps<T, R>(channel: seq<Info<T>>, tasks: seq<T>, mailboxes: seq<nat>, posted: map<nat, R>,
                            submitted: seq<Info<T>>, answers: seq<Answer<T, R>>, idx: nat, output: R)
    requires Consistent(channel, tasks, mailboxes, posted, submitted, answers) && idx < |tasks|
    ensures Consistent(channel, RemoveAt(tasks, idx), RemoveAt(mailboxes, idx), posted[mailboxes[idx] := output],
                       submitted, answers + [Answer(Info(tasks[idx], mailboxes[idx]), output)])
  {
    hide OwnMailboxes;
    var info := Info(tasks[idx], mailboxes[idx]);
    EmptyMailbox(channel, tasks, mailboxes, posted, submitted, answers, idx);
    RemovePairs(tasks, mailboxes, idx);
    PostedKept(answers, posted, info, output);
    hide PostedRight;
    assert Infos(answers + [Answer(info, output)]) == Infos(answers) + [info];
  }

  /** The latest of the first n receives found nothing that had come. */
  predicate NothingCame<T>(arrivals: seq<Option<T>>, n: nat) {
    n > 0 && (n > |arrivals| || arrivals[n - 1].None?)
  }

  class Worker<T(==), R> {
    var channel: seq<Info<T>>
    var tasks: seq<T>
    var mailboxes: seq<nat>
    // What has been put in each mailbox.
    var posted: map<nat, R>
    // Histories.
    var submitted: seq<Info<T>>
    ghost var answers: seq<Answer<T, R>>
    ghost var waits: seq<Wait<T>>

    ghost predicate Valid() reads this {
      Consistent(channel, tasks, mailboxes, posted, submitted, answers)
    }

    constructor ()
      ensures Valid() && submitted == [] && answers == [] && waits == []
    {
      channel, tasks, mailboxes, posted := [], [], [], map[];
      submitted, answers, waits := [], [], [];
    }

    /** A new future's task is sent with its mailbox, into a channel that has room. */
    method Submit(task: T)
      requires Valid() && |channel| < PartyLaunch.CAPACITY
      modifies this`channel, this`submitted
      ensures Valid() && channel == old(channel) + [Info(task, old(|submitted|))]
      ensures submitted == old(submitted) + [Info(task, old(|submitted|))]
    {
      channel := channel + [Info(task, |submitted|)];
      submitted := submitted + [Info(task, |submitted|)];
    }

    /** `tasks.push(info.task); mailboxes.push(info.mailbox)` for the oldest message. */
    method TakeOne()
      requires Valid() && channel != []
      modifies this`channel, this`tasks, this`mailboxes
      ensures Valid() && channel == old(channel)[1..]
      ensures tasks == old(tasks) + [old(channel)[0].task] && mailboxes == old(mailboxes) + [old(channel)[0].mailbox]
    {
      var info := channel[0];
      PushPairs(tasks, mailboxes, info);
      assert channel == [info] + channel[1..];
      channel := channel[1..];
      tasks := tasks + [info.task];
      mailboxes := mailboxes + [info.mailbox];
    }

    /** Before the worker's k-th receive a sender may get through, if there is room. */
    method Arrive(arrivals: seq<Option<T>>, k: nat)
      requires Valid()
      modifies this`channel, this`submitted
      ensures Valid() && old(submitted) <= submitted
      ensures channel == old(channel) + submitted[|old(submitted)|..]
      ensures k < |arrivals| && arrivals[k].Some? && |old(channel)| < PartyLaunch.CAPACITY ==>
                submitted == old(submitted) + [Info(arrivals[k].value, |old(submitted)|)]
      ensures k >= |arrivals| ==> submitted == old(submitted)
    {
      hide Valid;
      if k < |arrivals| && arrivals[k].Some? && |channel| < PartyLaunch.CAPACITY { Submit(arrivals[k].value); }
    }

    /** read_greedy: receive until the channel is found empty.  What was in it, and what is sent meanwhile,
        goes to the ends of the two vectors in the order it was sent. */
    method ReadGreedy(arrivals: seq<Option<T>>, k: nat) returns (next: nat)
      requires Valid()
      modifies this`channel, this`submitted, this`tasks, this`mailboxes
      ensures Valid() && channel == [] && old(submitted) <= submitted && k < next && NothingCame(arrivals, next)
      ensures tasks == old(tasks) + TasksOf(old(channel) + submitted[|old(submitted)|..])
      ensures mailboxes == old(mailboxes) + MailboxesOf(old(channel) + submitted[|old(submitted)|..])
    {
      hide Valid;
      ghost var taken: seq<Info<T>> := [];
      Arrive(arrivals, k);
      next := k + 1;
      while channel != []
        invariant Valid() && k < next && old(submitted) <= submitted && (channel == [] ==> NothingCame(arrivals, next))
        invariant taken + channel == old(channel) + submitted[|old(submitted)|..]
        invariant tasks == old(tasks) + TasksOf(taken) && mailboxes == old(mailboxes) + MailboxesOf(taken)
        decreases if next <= |arrivals| then |arrivals| - next + 1 else 0, |channel|
      {
        ghost var queued, before := channel, submitted;
        PartsOfPush(taken, channel[0]);
        TakeOne();
        Arrive(arrivals, next);
        OneTaken(taken, queued, old(channel), old(submitted), before, submitted);
        taken := taken + [queued[0]];
        next := next + 1;
      }
    }

    /** wait_any_one: the output goes to the mailbox of the very task that produced it, which had
        none before, and both vectors lose that pair. */
    method WaitAnyOne(result: WakeResult<R>)
      requires Valid() && tasks != []
      modifies this
      ensures Valid() && channel == old(channel) && submitted == old(submitted)
      ensures waits == old(waits) + [Wait(Zip(old(tasks), old(mailboxes)), |channel|, submitted, Infos(old(answers)))]
      ensures result.Sidechannel? ==> tasks == old(tasks) && mailboxes == old(mailboxes) && answers == old(answers) && posted == old(posted)
      ensures result.Completed? ==>
                var idx := result.choice % |old(tasks)|;
                var info := Info(old(tasks)[idx], old(mailboxes)[idx]);
                && info in submitted && info.mailbox !in old(posted)
                && posted == old(posted)[info.mailbox := result.output]
                && answers == old(answers) + [Answer(info, result.output)]
                && tasks == RemoveAt(old(tasks), idx) && mailboxes == RemoveAt(old(mailboxes), idx)
    {
      waits := waits + [Wait(Zip(tasks, mailboxes), |channel|, submitted, Infos(answers))];
      match result
      case Sidechannel =>
      case Completed(choice, output) =>
        var idx := choice % |tasks|;
        ghost var info := Info(tasks[idx], mailboxes[idx]);
        NotYetPosted(idx);
        AnsweredKeeps(channel, tasks, mailboxes, posted, submitted, answers, idx, output);
        hide Consistent;
        var mailbox := mailboxes[idx];
        tasks := RemoveAt(tasks, idx);
        mailboxes := RemoveAt(mailboxes, idx);
        posted := posted[mailbox := output];
        answers := answers + [Answer(info, output)];
    }

    /** A waiting task's mailbox is empty: send_mail's assertions hold. */
    lemma NotYetPosted(idx: nat)
      requires Valid() && idx < |tasks|
      ensures mailboxes[idx] !in posted && Info(tasks[idx], mailboxes[idx]) in submitted
    {
      EmptyMailbox(channel, tasks, mailboxes, posted, submitted, answers, idx);
    }

    /** With nothing waiting, every task submitted has been answered, once. */
    lemma Drained()
      requires Valid() && tasks == [] && channel == []
      ensures multiset(submitted) == multiset(Infos(answers))
    {
      assert Zip(tasks, mailboxes) == [];
    }

    /** What is waiting is what was submitted and neither answered nor still in the channel. */
    lemma WaitingIsUnanswered()
      requires Valid() && channel == []
      ensures multiset(submitted) == multiset(Zip(tasks, mailboxes)) + multiset(Infos(answers))
    {
    }

    /** One wait of the worker's loop, after the channel has been emptied. */
    method WaitAll(result: WakeResult<R>) returns (ghost wait: Wait<T>)
      requires Valid() && tasks != [] && channel == []
      modifies this
      ensures Valid() && submitted == old(submitted)
      ensures waits == old(waits) + [wait] && Thorough(wait) && answers == old(answers) + Reply(wait, result)
      ensures wait.submitted == submitted && wait.answered == Infos(old(answers))
    {
      WaitingIsUnanswered();
      wait := Wait(Zip(tasks, mailboxes), |channel|, submitted, Infos(answers));
      hide Valid;
      WaitAnyOne(result);
    }

    /** worker_fn_user_waiting, with senders getting through before any of its receives, for as many waits as
        are given.  Every wait is on all the tasks submitted and unanswered, and those that complete are
        answered with their outputs; it stops when a receive finds it without a task and brings none, and
        then has answered every task submitted, once. */
    method WorkerFn(arrivals: seq<Option<T>>, results: seq<WakeResult<R>>) returns (stopped: bool, served: nat, receives: nat)
      requires Valid()
      modifies this
      ensures Valid() && served <= |results| && (!stopped ==> served == |results|)
      ensures old(submitted) <= submitted
      ensures old(waits) <= waits && |waits| == |old(waits)| + served
      ensures forall i :: |old(waits)| <= i < |waits| ==> Thorough(waits[i])
      ensures answers == old(answers) + AnswersOf(waits[|old(waits)|..], results[..served])
      ensures stopped ==> tasks == [] && channel == [] && receives >= 2 && NothingCame(arrivals, receives)
      ensures stopped ==> multiset(submitted) == multiset(Infos(answers))
    {
      hide Valid;
      hide Thorough;
      hide AnswersOf;
      hide Reply;
      hide Infos;
      receives := ReadGreedy(arrivals, 0);
      served := 0;
      stopped := false;
      ghost var made: seq<Wait<T>> := [];
      NoAnswers<T, R>();
      while served < |results|
        invariant 0 <= served <= |results| && Valid() && old(submitted) <= submitted
        invariant receives >= 1
        invariant waits == old(waits) + made && |made| == served
        invariant forall i :: 0 <= i < |made| ==> Thorough(made[i])
        invariant answers == old(answers) + AnswersOf(made, results[..served])
        decreases |results| - served, if tasks == [] then 1 else 0
      {
        if tasks != [] {
          receives := ReadGreedy(arrivals, receives);
          ghost var wait := WaitAll(results[served]);
          AnswersGrow(made, results[..served], wait, results[served]);
          made := made + [wait];
          assert results[..served + 1] == results[..served] + [results[served]];
          served := served + 1;
        } else {
          Arrive(arrivals, receives);
          receives := receives + 1;
          if channel == [] {
            // recv_timeout ran out
            Drained();
            stopped := true;
            assert waits[|old(waits)|..] == made;
            return;
          }
          TakeOne();
        }
      }
      assert waits[|old(waits)|..] == made;
    }
  }

  lemma NoAnswers<T, R>()
    ensures AnswersOf<T, R>([], []) == []
  {
  }

  lemma PostedKept<T, R>(answers: seq<Answer<T, R>>, posted: map<nat, R>, info: Info<T>, output: R)
    requires info.mailbox !in posted && PostedRight(posted, answers)
    ensures PostedRight(posted[info.mailbox := output], answers + [Answer(info, output)])
  {
    var next := answers + [Answer(info, output)];
    var after := posted[info.mailbox := output];
    forall b | b in after ensures exists k :: 0 <= k < |next| && next[k].info.mailbox == b {
      if b == info.mailbox {
        assert next[|answers|].info.mailbox == b;
      } else {
        var k :| 0 <= k < |answers| && answers[k].info.mailbox == b;
        assert next[k].info.mailbox == b;
      }
    }
  }
}
