/**
 * The contact page's submission status (pages/Contact.tsx).
 *
 * The status is one of three values. Submitting the form sets it to
 * "submitting" and schedules a one-shot callback that, after a simulated
 * delay, sets it to "success"; the confirmation panel then offers a button
 * that returns it to "idle". The form is rendered only while the status is
 * not "success", and its submit button is disabled while it is
 * "submitting", so a submit event reaches the page only from "idle".
 *
 * The delay is modelled as a discrete event: the callback firing.
 */
module Contact {

  datatype FormState = Idle | Submitting | Success

  /** The page's state: the status and how many delayed callbacks are
      scheduled and have not fired yet. */
  datatype PageState = PageState(formState: FormState, pendingTimers: nat)

  datatype ContactEvent =
    | SubmitForm    // the form's submit event (button click or Enter)
    | TimerFired    // the simulated delay has elapsed
    | SendAnother   // the "Enviar outra mensagem" button

  const SubmittingLabel: string := "Enviando..."
  const IdleLabel: string := "Enviar Mensagem"

  // ---------------------------------------------------------------------
  // What the page renders for a status
  // ---------------------------------------------------------------------

  /** The confirmation panel, with its "send another" button, is shown
      exactly on success; the submit button is then off the page. */
  function ShowsConfirmation(fs: FormState): (r: bool)
    ensures r <==> fs == Success
    ensures r ==> !SubmitDisabled(fs)
  {
    fs == Success
  }

  /** The form is shown in every status but success, never together with
      the confirmation. */
  function ShowsForm(fs: FormState): (r: bool)
    ensures r <==> fs == Idle || fs == Submitting
    ensures r != ShowsConfirmation(fs)
  {
    !ShowsConfirmation(fs)
  }

  /** The submit button is disabled exactly while submitting, which is a
      status in which the form is on the page. */
  function SubmitDisabled(fs: FormState): (r: bool)
    ensures r <==> fs == Submitting
    ensures r ==> fs != Idle && fs != Success
  {
    fs == Submitting
  }

  function SubmitLabel(fs: FormState): (r: string)
    ensures r == SubmittingLabel <==> fs == Submitting
    ensures r == IdleLabel <==> fs != Submitting
  {
    if fs == Submitting then SubmittingLabel else IdleLabel
  }

  /** The form and the confirmation panel are never shown together, and
      one of them always is. */
  lemma FormOrConfirmation(fs: FormState)
    ensures ShowsConfirmation(fs) <==> fs == Success
    ensures ShowsForm(fs) <==> fs != Success
    ensures ShowsForm(fs) != ShowsConfirmation(fs)
  {
  }

  /** A submit event reaches the handler only when the form is on the
      page and its button is enabled. */
  predicate SubmitReachable(fs: FormState)
  {
    ShowsForm(fs) && !SubmitDisabled(fs)
  }

  /** The only status that accepts a submission is "idle". */
  lemma SubmitReachableOnlyWhenIdle(fs: FormState)
    ensures SubmitReachable(fs) <==> fs == Idle
  {
  }

  // ---------------------------------------------------------------------
  // Transitions
  // ---------------------------------------------------------------------

  const Initial: PageState := PageState(Idle, 0)

  /** One event. A submit is taken only from "idle" and schedules one
      callback; a firing callback sets "success" whatever the status; "send
      another" is taken only from "success" and returns to "idle"; an event
      that is not taken changes nothing. */
  function Step(s: PageState, e: ContactEvent): (r: PageState)
    ensures e.SubmitForm? ==> (r == s <==> s.formState != Idle)
    ensures e.SubmitForm? && s.formState == Idle ==> r == PageState(Submitting, s.pendingTimers + 1)
    ensures e.TimerFired? && s.pendingTimers > 0 ==> r == PageState(Success, s.pendingTimers - 1)
    ensures e.TimerFired? && s.pendingTimers == 0 ==> r == s
    ensures e.SendAnother? ==> r.pendingTimers == s.pendingTimers
    ensures e.SendAnother? ==> r.formState == if s.formState == Success then Idle else s.formState
  {
    match e
    case SubmitForm =>
      if SubmitReachable(s.formState) then PageState(Submitting, s.pendingTimers + 1) else s
    case TimerFired =>
      if s.pendingTimers > 0 then PageState(Success, s.pendingTimers - 1) else s
    case SendAnother =>
      if ShowsConfirmation(s.formState) then s.(formState := Idle) else s
  }

  function Run(s: PageState, es: seq<ContactEvent>): PageState
    decreases es
  {
    if es == [] then s else Run(Step(s, es[0]), es[1..])
  }

  /** A callback is pending exactly while the status is "submitting", and
      never more than one. */
  predicate Consistent(s: PageState)
  {
    s.pendingTimers == if s.formState == Submitting then 1 else 0
  }

  lemma StepKeepsConsistent(s: PageState, e: ContactEvent)
    requires Consistent(s)
    ensures Consistent(Step(s, e))
  {
  }

  /** Every history that starts on a fresh page stays consistent: one
      simulated request at a time, and "submitting" always ends in
      "success" once its callback fires. */
  lemma {:induction false} RunKeepsConsistent(s: PageState, es: seq<ContactEvent>)
    requires Consistent(s)
    ensures Consistent(Run(s, es))
    decreases es
  {
    if es != [] {
      StepKeepsConsistent(s, es[0]);
      RunKeepsConsistent(Step(s, es[0]), es[1..]);
    }
  }

  /** In a consistent state each event does what its handler says:
      submit moves "idle" to "submitting", the callback moves "submitting"
      to "success", "send another" moves "success" to "idle", and every
      other event leaves the status alone. */
  lemma StepOnStatus(s: PageState, e: ContactEvent)
    requires Consistent(s)
    ensures Step(s, e).formState ==
      match e
      case SubmitForm => if s.formState == Idle then Submitting else s.formState
      case TimerFired => if s.formState == Submitting then Success else s.formState
      case SendAnother => if s.formState == Success then Idle else s.formState
  {
  }

  /** A second submit while "submitting" is not accepted. */
  lemma NoSubmitWhileSubmitting(s: PageState)
    requires s.formState == Submitting
    ensures Step(s, SubmitForm) == s
  {
  }

  /** Submit, wait, send another: the page is back where it started. */
  lemma FullCycle(s: PageState)
    requires Consistent(s) && s.formState == Idle
    ensures Run(s, [SubmitForm, TimerFired, SendAnother]) == s
  {
    var s1 := Step(s, SubmitForm);
    var s2 := Step(s1, TimerFired);
    var s3 := Step(s2, SendAnother);
    assert s3 == s;
    assert [SubmitForm, TimerFired, SendAnother][1..] == [TimerFired, SendAnother];
    assert [TimerFired, SendAnother][1..] == [SendAnother];
    assert [SendAnother][1..] == [];
  }

  // ---------------------------------------------------------------------
  // The page's mutable state
  // ---------------------------------------------------------------------

  class ContactPage {
    var formState: FormState
    /** Delayed callbacks scheduled and not yet fired. */
    var pendingTimers: nat

    function State(): PageState
      reads this
    {
      PageState(formState, pendingTimers)
    }

    predicate Valid()
      reads this
    {
      Consistent(State())
    }

    /** The status starts "idle", with nothing scheduled. */
    constructor ()
      ensures formState == Idle && pendingTimers == 0
      ensures State() == Initial && Valid()
    {
      formState := Idle;
      pendingTimers := 0;
    }

    /** A submit event: the handler runs only if the form is on the page
        and its button is enabled; it sets "submitting" and schedules the
        delayed callback. */
    method Submit() returns (accepted: bool)
      requires Valid()
      modifies this
      ensures Valid()
      ensures State() == Step(old(State()), SubmitForm)
      ensures accepted <==> old(formState) == Idle
      ensures accepted ==> formState == Submitting && pendingTimers == 1
      ensures !accepted ==> formState == old(formState) && pendingTimers == old(pendingTimers)
    {
      accepted := SubmitReachable(formState);
      if accepted {
        formState := Submitting;
        pendingTimers := pendingTimers + 1;
      }
    }

    /** The delayed callback fires. */
    method OnTimer()
      requires Valid() && pendingTimers > 0
      modifies this
      ensures Valid()
      ensures State() == Step(old(State()), TimerFired)
      ensures old(formState) == Submitting && formState == Success && pendingTimers == 0
    {
      formState := Success;
      pendingTimers := pendingTimers - 1;
    }

    /** The "Enviar outra mensagem" button, present only on the confirmation panel. */
    method SendAnotherMessage() returns (accepted: bool)
      requires Valid()
      modifies this
      ensures Valid()
      ensures State() == Step(old(State()), SendAnother)
      ensures accepted <==> old(formState) == Success
      ensures accepted ==> formState == Idle
      ensures !accepted ==> formState == old(formState)
      ensures pendingTimers == old(pendingTimers)
    {
      accepted := ShowsConfirmation(formState);
      if accepted {
        formState := Idle;
      }
    }
  }

  /** A submission seen from the page: the button reads "Enviar Mensagem",
      then "Enviando..." while disabled (a second submit is refused), then
      the confirmation replaces the form, and "send another" brings the
      form back. */
  method ContactScenario() returns (labels: seq<string>, disabled: seq<bool>, confirmation: seq<bool>, resubmitted: bool)
    ensures !resubmitted
    ensures labels == [IdleLabel, SubmittingLabel, IdleLabel, IdleLabel]
    ensures disabled == [false, true, false, false]
    ensures confirmation == [false, false, true, false]
  {
    var page := new ContactPage();
    labels, disabled, confirmation :=
      [SubmitLabel(page.formState)], [SubmitDisabled(page.formState)], [ShowsConfirmation(page.formState)];
    var ok := page.Submit();
    resubmitted := page.Submit();
    labels, disabled, confirmation := labels + [SubmitLabel(page.formState)],
      disabled + [SubmitDisabled(page.formState)], confirmation + [ShowsConfirmation(page.formState)];
    page.OnTimer();
    labels, disabled, confirmation := labels + [SubmitLabel(page.formState)],
      disabled + [SubmitDisabled(page.formState)], confirmation + [ShowsConfirmation(page.formState)];
    ok := page.SendAnotherMessage();
    labels, disabled, confirmation := labels + [SubmitLabel(page.formState)],
      disabled + [SubmitDisabled(page.formState)], confirmation + [ShowsConfirmation(page.formState)];
  }
}
