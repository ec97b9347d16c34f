/**
 * The gulpfile's module-level state and the helpers that change it: the
 * compile mode fixed at start-up, the `hasErrors` flag written by the two
 * error handlers and read and cleared by `notifySuccess`, and `cleanUp`.
 * What these helpers do to the outside world (console output, desktop
 * notifications, ending a stream, deleting files) is recorded as a log of
 * effects.
 */
module Effects {
  import opened Config

  /** Which error handler ran: `notifySASSError` or `notifyJSError`. */
  datatype ErrorKind = SassError | JsError

  /** One externally visible action of a helper. */
  datatype Effect =
    | ConsoleLog(text: string)                                  // console.log(err.toString())
    | ErrorNotice(title: string, message: string, sound: string) // notify.onError({...})(err)
    | EndStream                                                  // this.emit('end')
    | SuccessNotice(title: string, message: string)             // notifier.notify({...})
    | Delete(patterns: seq<string>)                              // del(pattern, cb)

  /** The mutable part of the module state, as a value. */
  datatype State = State(hasErrors: bool, log: seq<Effect>)

  const ErrorTitle := "Ooops..."
  const ErrorSound := "Sosumi"
  const SuccessTitle := "Yaaay!"
  /** The pattern `cleanUp` deletes instead when clean-up is switched off. */
  const DummyPattern := ["nothing.toDelete"]

  function ErrorMessage(kind: ErrorKind): string {
    match kind
    case SassError => "Error compiling SASS!"
    case JsError => "Error compiling JS!"
  }

  /** An error handler: sets the flag, logs the error, notifies, and ends the stream. */
  function OnError(s: State, kind: ErrorKind, err: string): State {
    State(true, s.log + [ConsoleLog(err), ErrorNotice(ErrorTitle, ErrorMessage(kind), ErrorSound), EndStream])
  }

  /** `notifySuccess`: notifies only while no error is recorded, then clears the flag. */
  function OnSuccess(s: State, msg: string): State {
    State(false, if !s.hasErrors then s.log + [SuccessNotice(SuccessTitle, msg)] else s.log)
  }

  /** The pattern `cleanUp` hands to `del`. */
  function CleanUpPattern(c: Config, pattern: seq<string>): seq<string> {
    if !c.cleanUpFiles then DummyPattern else pattern
  }

  /** `cleanUp`: always issues exactly one delete; the flag is untouched. */
  function OnCleanUp(s: State, c: Config, pattern: seq<string>): State {
    State(s.hasErrors, s.log + [Delete(CleanUpPattern(c, pattern))])
  }

  /** The messages of the success notifications in a log, in order. */
  function Notices(log: seq<Effect>): seq<string> {
    if log == [] then []
    else (if log[0].SuccessNotice? then [log[0].message] else []) + Notices(log[1..])
  }

  /** The pattern deleted by each delete effect in a log, in order. */
  function Deletions(log: seq<Effect>): seq<seq<string>> {
    if log == [] then []
    else (if log[0].Delete? then [log[0].patterns] else []) + Deletions(log[1..])
  }

  lemma {:induction false} NoticesConcat(a: seq<Effect>, b: seq<Effect>)
    ensures Notices(a + b) == Notices(a) + Notices(b)
  {
    if a == [] {
      assert a + b == b;
    } else {
      var head := if a[0].SuccessNotice? then [a[0].message] else [];
      assert (a + b)[0] == a[0] && (a + b)[1..] == a[1..] + b;
      assert Notices(a + b) == head + Notices(a[1..] + b);
      NoticesConcat(a[1..], b);
      assert Notices(a) == head + Notices(a[1..]);
    }
  }

  lemma {:induction false} DeletionsConcat(a: seq<Effect>, b: seq<Effect>)
    ensures Deletions(a + b) == Deletions(a) + Deletions(b)
  {
    if a == [] {
      assert a + b == b;
    } else {
      var head := if a[0].Delete? then [a[0].patterns] else [];
      assert (a + b)[0] == a[0] && (a + b)[1..] == a[1..] + b;
      assert Deletions(a + b) == head + Deletions(a[1..] + b);
      DeletionsConcat(a[1..], b);
      assert Deletions(a) == head + Deletions(a[1..]);
    }
  }

  /** A log with no success notice contributes no notice message. */
  lemma {:induction false} NoNotices(l: seq<Effect>)
    requires forall i :: 0 <= i < |l| ==> !l[i].SuccessNotice?
    ensures Notices(l) == []
  {
    if l != [] {
      NoNotices(l[1..]);
    }
  }

  /** A log with no delete contributes no deletion. */
  lemma {:induction false} NoDeletions(l: seq<Effect>)
    requires forall i :: 0 <= i < |l| ==> !l[i].Delete?
    ensures Deletions(l) == []
  {
    if l != [] {
      NoDeletions(l[1..]);
    }
  }

  /** Either error handler records the error and adds no success notice and no delete. */
  lemma ErrorSetsFlag(s: State, kind: ErrorKind, err: string)
    ensures OnError(s, kind, err).hasErrors
    ensures Notices(OnError(s, kind, err).log) == Notices(s.log)
    ensures Deletions(OnError(s, kind, err).log) == Deletions(s.log)
  {
    var added := [ConsoleLog(err), ErrorNotice(ErrorTitle, ErrorMessage(kind), ErrorSound), EndStream];
    NoticesConcat(s.log, added);
    DeletionsConcat(s.log, added);
    NoNotices(added);
    NoDeletions(added);
  }

  /** `notifySuccess` adds the notice exactly when no error was recorded, and always leaves the flag cleared. */
  lemma SuccessNotifiesIffClean(s: State, msg: string)
    ensures !OnSuccess(s, msg).hasErrors
    ensures Notices(OnSuccess(s, msg).log) == Notices(s.log) + (if s.hasErrors then [] else [msg])
    ensures Deletions(OnSuccess(s, msg).log) == Deletions(s.log)
  {
    if !s.hasErrors {
      NoticesConcat(s.log, [SuccessNotice(SuccessTitle, msg)]);
      DeletionsConcat(s.log, [SuccessNotice(SuccessTitle, msg)]);
    }
  }

  /** `cleanUp` issues exactly one delete, of the given pattern or of the dummy one, and nothing else. */
  lemma CleanUpDeletesOnce(s: State, c: Config, pattern: seq<string>)
    ensures OnCleanUp(s, c, pattern).hasErrors == s.hasErrors
    ensures Notices(OnCleanUp(s, c, pattern).log) == Notices(s.log)
    ensures Deletions(OnCleanUp(s, c, pattern).log) == Deletions(s.log) + [if c.cleanUpFiles then pattern else DummyPattern]
  {
    NoticesConcat(s.log, [Delete(CleanUpPattern(c, pattern))]);
    DeletionsConcat(s.log, [Delete(CleanUpPattern(c, pattern))]);
  }

  /** An error suppresses the next success notice only; the one after it is shown again. */
  lemma ErrorThenSuccess(s: State, kind: ErrorKind, err: string, first: string, second: string)
    ensures var s1 := OnSuccess(OnError(s, kind, err), first);
            && Notices(s1.log) == Notices(s.log)
            && !s1.hasErrors
            && Notices(OnSuccess(s1, second).log) == Notices(s.log) + [second]
  {
    var s0 := OnError(s, kind, err);
    ErrorSetsFlag(s, kind, err);
    SuccessNotifiesIffClean(s0, first);
    SuccessNotifiesIffClean(OnSuccess(s0, first), second);
  }

  /**
   * The state the gulpfile keeps between tasks. `cfg` holds the compile
   * mode, assigned once when the file is loaded; `hasErrors` and the log
   * change as the helpers run.
   */
  class Gulpfile {
    const cfg: Config
    var hasErrors: bool
    var log: seq<Effect>

    function Snapshot(): State
      reads this
    {
      State(hasErrors, log)
    }

    /** Loading the file: the production defaults, replaced by the development settings under `--dev`. */
    constructor (dev: bool)
      ensures cfg == Resolve(dev)
      ensures !hasErrors && log == []
    {
      var isProduction, sassStyle, sourceMap, combineMediaQueries, cleanUpFiles := true, Compressed, false, true, true;
      if dev {
        isProduction := false;
        sassStyle := Expanded;
        sourceMap := true;
        combineMediaQueries := false;
        cleanUpFiles := false;
      }
      cfg := Config(isProduction, sassStyle, sourceMap, combineMediaQueries, cleanUpFiles);
      hasErrors := false;
      log := [];
    }

    /** `notifySASSError`. */
    method NotifySassError(err: string)
      modifies this
      ensures Snapshot() == OnError(old(Snapshot()), SassError, err)
      ensures hasErrors
    {
      hasErrors := true;
      log := log + [ConsoleLog(err)];
      log := log + [ErrorNotice(ErrorTitle, "Error compiling SASS!", ErrorSound)];
      log := log + [EndStream];
    }

    /** `notifyJSError`. */
    method NotifyJsError(err: string)
      modifies this
      ensures Snapshot() == OnError(old(Snapshot()), JsError, err)
      ensures hasErrors
    {
      hasErrors := true;
      log := log + [ConsoleLog(err)];
      log := log + [ErrorNotice(ErrorTitle, "Error compiling JS!", ErrorSound)];
      log := log + [EndStream];
    }

    /** `notifySuccess`. */
    method NotifySuccess(msg: string)
      modifies this
      ensures Snapshot() == OnSuccess(old(Snapshot()), msg)
      ensures !hasErrors
      ensures Notices(log) == Notices(old(log)) + (if old(hasErrors) then [] else [msg])
    {
      SuccessNotifiesIffClean(Snapshot(), msg);
      if hasErrors == false {
        log := log + [SuccessNotice(SuccessTitle, msg)];
      }
      hasErrors := false;
    }

    /** `cleanUp`: the pattern is swapped for the dummy one when clean-up is off, and the delete is issued either way. */
    method CleanUp(pattern: seq<string>)
      modifies this
      ensures Snapshot() == OnCleanUp(old(Snapshot()), cfg, pattern)
      ensures Deletions(log) == Deletions(old(log)) + [if cfg.cleanUpFiles then pattern else DummyPattern]
    {
      CleanUpDeletesOnce(Snapshot(), cfg, pattern);
      var p := pattern;
      if cfg.cleanUpFiles == false {
        p := DummyPattern;
      }
      log := log + [Delete(p)];
    }
  }
}
