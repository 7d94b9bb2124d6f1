/** Chat messages and the conversation log kept by the session.
    A message is the `{"role": ..., "content": ...}` dictionary of app.py. */
module Messages {

  datatype Role = System | User | Assistant

  datatype Msg = Msg(role: Role, content: string)

  /** Number of messages of `ms` that carry `role`. */
  function CountRole(ms: seq<Msg>, role: Role): nat
  {
    if ms == [] then 0
    else CountRole(ms[..|ms| - 1], role) + (if ms[|ms| - 1].role == role then 1 else 0)
  }

  /** No message of `ms` is a system message. */
  predicate NoSystem(ms: seq<Msg>)
  {
    forall i :: 0 <= i < |ms| ==> ms[i].role != System
  }

  /** The shape every session log has: only user and assistant messages, and
      each assistant message directly follows the user message it answers. */
  predicate WellFormedLog(log: seq<Msg>)
  {
    && NoSystem(log)
    && forall i :: 0 <= i < |log| && log[i].role == Assistant ==> 0 < i && log[i - 1].role == User
  }

  lemma {:induction false} CountRoleConcat(a: seq<Msg>, b: seq<Msg>, role: Role)
    ensures CountRole(a + b, role) == CountRole(a, role) + CountRole(b, role)
    decreases |b|
  {
    if b != [] {
      var b' := b[..|b| - 1];
      assert (a + b)[..|a + b| - 1] == a + b';
      assert (a + b)[|a + b| - 1] == b[|b| - 1];
      CountRoleConcat(a, b', role);
    } else {
      assert a + b == a;
    }
  }

  lemma {:induction false} CountRoleAbsent(ms: seq<Msg>, role: Role)
    requires forall i :: 0 <= i < |ms| ==> ms[i].role != role
    ensures CountRole(ms, role) == 0
    decreases |ms|
  {
    if ms != [] {
      CountRoleAbsent(ms[..|ms| - 1], role);
    }
  }

  /** Appending a user message keeps a log well formed. */
  lemma AppendQuestion(log: seq<Msg>, text: string)
    requires WellFormedLog(log)
    ensures WellFormedLog(log + [Msg(User, text)])
  {
    var l := log + [Msg(User, text)];
    forall i | 0 <= i < |log| ensures l[i] == log[i] { }
  }

  /** Appending an assistant message right after a user message keeps a log
      well formed. */
  lemma AppendAnswer(log: seq<Msg>, text: string)
    requires WellFormedLog(log) && |log| > 0 && log[|log| - 1].role == User
    ensures WellFormedLog(log + [Msg(Assistant, text)])
  {
    var l := log + [Msg(Assistant, text)];
    forall i | 0 <= i < |log| ensures l[i] == log[i] { }
  }

  /** Every rule of WellFormedLog survives cutting the log back to a prefix. */
  lemma WellFormedPrefix(log: seq<Msg>, n: nat)
    requires WellFormedLog(log) && n <= |log|
    ensures WellFormedLog(log[..n])
  {
    var p := log[..n];
    forall i | 0 <= i < |p| ensures p[i] == log[i] { }
  }

  /** In a well-formed log there are never more answers than questions. */
  lemma {:induction false} AnswersNeverOutnumberQuestions(log: seq<Msg>)
    requires WellFormedLog(log)
    ensures CountRole(log, Assistant) <= CountRole(log, User)
    decreases |log|
  {
    if log != [] {
      var p := log[..|log| - 1];
      WellFormedPrefix(log, |log| - 1);
      if log[|log| - 1].role == Assistant {
        assert log[|log| - 2].role == User;
        var q := p[..|p| - 1];
        assert q == log[..|log| - 2];
        WellFormedPrefix(log, |log| - 2);
        AnswersNeverOutnumberQuestions(q);
      } else {
        AnswersNeverOutnumberQuestions(p);
      }
    }
  }
}
