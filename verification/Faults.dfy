/** The environment of a durable protocol: every attempted effect draws one verdict.

    A verdict decides whether the attempt happens, is refused (the command exits with an error and
    changes nothing) or coincides with the death of the process.  A dead process attempts nothing:
    each further attempt fails without an effect until the environment is restarted.  A lemma that
    quantifies over every script of verdicts therefore quantifies over every crash point and every
    pattern of failing commands. */
module Faults {
  datatype Verdict = Proceed | Refuse | Crash

  /** `verdicts` is consumed from the front; attempts beyond its end proceed. */
  datatype Env = Env(verdicts: seq<Verdict>, crashed: bool)

  /** One attempt: the environment after it, and whether the effect happens. */
  function Attempt(e: Env): (Env, bool) {
    if e.crashed then (e, false)
    else if e.verdicts == [] then (e, true)
    else match e.verdicts[0]
      case Proceed => (e.(verdicts := e.verdicts[1..]), true)
      case Refuse => (e.(verdicts := e.verdicts[1..]), false)
      case Crash => (Env(e.verdicts[1..], true), false)
  }

  /** The process is started again; what is left of the script lies ahead of it. */
  function Restart(e: Env): Env { e.(crashed := false) }

  /** Nothing goes wrong any more. */
  ghost predicate Calm(e: Env) {
    !e.crashed && forall i :: 0 <= i < |e.verdicts| ==> e.verdicts[i] == Proceed
  }

  /** The process may die at any point, but no command is refused. */
  ghost predicate CrashOnly(e: Env) {
    forall i :: 0 <= i < |e.verdicts| ==> e.verdicts[i] != Refuse
  }

  /** No command is refused; if `calm`, no crash lies ahead either. */
  ghost predicate Benign(e: Env, calm: bool) { CrashOnly(e) && (calm ==> Calm(e)) }

  lemma BenignAttempt(e: Env, calm: bool)
    requires Benign(e, calm)
    ensures var (e', ok) := Attempt(e);
            Benign(e', calm) && (ok <==> !e'.crashed) && (e.crashed ==> e'.crashed)
  {
  }
}
