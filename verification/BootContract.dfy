/** The boot compatibility check of a guest (packages/workspaces/boat-image/guest_contract.py), as a
    machine over observations and as a reading of their whole history. */
module BootContract {
  import opened Wrappers

  type Profile = string
  type Reason = string

  datatype Status = Held | Checking | Compatible | Incompatible | TimedOut
  datatype Binding = Binding(bootId: string, instanceId: string, diskLineage: string, manifestDigest: string,
                             approvedProfile: Profile)
  datatype Admission = AdmissionHeld
  datatype BootState = BootState(binding: Binding, status: Status, firstInvocation: real, deadline: real, stable: nat,
                                 observedProfile: Option<Profile>, reasons: seq<Reason>, admission: Admission)

  const DEADLINE_REASON := "compatibility-deadline"

  datatype Observation = Observation(now: real, profile: Option<Profile>, reasons: seq<Reason>)

  function InitialState(binding: Binding, now: real, deadlineSeconds: real): BootState {
    BootState(binding, Held, now, now + deadlineSeconds, 0, None, [], AdmissionHeld)
  }

  function Transition(state: BootState, o: Observation, minimumStable: nat): BootState {
    if state.status == TimedOut then state
    else if o.now >= state.deadline then
      state.(status := TimedOut, stable := 0,
             reasons := if o.reasons != [] then o.reasons else if state.reasons != [] then state.reasons else [DEADLINE_REASON])
    else if o.reasons != [] then
      state.(status := Incompatible, stable := 0, observedProfile := o.profile, reasons := o.reasons)
    else
      var stable := if state.observedProfile == o.profile then state.stable + 1 else 1;
      state.(status := if stable >= minimumStable then Compatible else Checking, stable := stable,
             observedProfile := o.profile, reasons := [])
  }

  function Run(state: BootState, observations: seq<Observation>, minimumStable: nat): BootState {
    if observations == [] then state
    else Transition(Run(state, observations[..|observations| - 1], minimumStable), observations[|observations| - 1], minimumStable)
  }

  // ---------------------------------------------------------------------------------------------
  // The history
  // ---------------------------------------------------------------------------------------------

  /** Some observation came at or after the deadline. */
  predicate Late(observations: seq<Observation>, deadline: real) {
    exists o :: o in observations && o.now >= deadline
  }

  predicate CleanWith(o: Observation, profile: Option<Profile>) {
    o.reasons == [] && o.profile == profile
  }

  /** How many of the last observations are clean and of one profile: the longest such block. */
  function Block(observations: seq<Observation>, profile: Option<Profile>): nat {
    if observations == [] || !CleanWith(observations[|observations| - 1], profile) then 0
    else 1 + Block(observations[..|observations| - 1], profile)
  }

  /** The block is as long as it can be. */
  lemma {:induction false} BlockIsLongest(observations: seq<Observation>, profile: Option<Profile>, n: nat)
    requires n <= |observations|
    ensures n <= Block(observations, profile)
            <==> forall i | |observations| - n <= i < |observations| :: CleanWith(observations[i], profile)
  {
    if n > 0 && CleanWith(observations[|observations| - 1], profile) {
      BlockIsLongest(observations[..|observations| - 1], profile, n - 1);
    }
  }

  function LatestProfile(observations: seq<Observation>): Option<Profile>
    requires observations != []
  {
    observations[|observations| - 1].profile
  }

  /** What the state says of a history with no late observation. */
  predicate Says(state: BootState, observations: seq<Observation>, minimumStable: nat)
    requires observations != []
  {
    && state.observedProfile == LatestProfile(observations)
    && state.reasons == observations[|observations| - 1].reasons
    && state.stable == Block(observations, LatestProfile(observations))
    && state.status == if state.reasons != [] then Incompatible
                       else if state.stable >= minimumStable then Compatible else Checking
  }

  lemma {:induction false} RunSays(binding: Binding, start: real, seconds: real, observations: seq<Observation>, minimumStable: nat)
    requires !Late(observations, start + seconds)
    ensures var state := Run(InitialState(binding, start, seconds), observations, minimumStable);
            && state.deadline == start + seconds
            && if observations == [] then state == InitialState(binding, start, seconds) else Says(state, observations, minimumStable)
  {
    if observations != [] {
      var before, o := observations[..|observations| - 1], observations[|observations| - 1];
      assert observations == before + [o];
      RunSays(binding, start, seconds, before, minimumStable);
      var state := Run(InitialState(binding, start, seconds), before, minimumStable);
      assert o in observations;
      if before != [] && o.reasons == [] && state.observedProfile != o.profile {
        assert Block(before, o.profile) == 0;
      }
    }
  }

  /** Timed out is for good, and always says why. */
  lemma {:induction false} RunTimesOut(binding: Binding, start: real, seconds: real, observations: seq<Observation>, minimumStable: nat)
    ensures var state := Run(InitialState(binding, start, seconds), observations, minimumStable);
            && (state.status == TimedOut <==> Late(observations, start + seconds))
            && (state.status == TimedOut ==> state.stable == 0 && state.reasons != [])
  {
    if Late(observations, start + seconds) {
      var before, o := observations[..|observations| - 1], observations[|observations| - 1];
      assert observations == before + [o];
      RunTimesOut(binding, start, seconds, before, minimumStable);
      RunKeepsBinding(binding, start, seconds, before, minimumStable);
    } else {
      RunSays(binding, start, seconds, observations, minimumStable);
    }
  }

  /** What a check timed out with: the reasons the first late observation gave, or else those of the last
      one before it, or else that the deadline passed; and the profile last seen in time. */
  lemma {:induction false} TimesOutWith(binding: Binding, start: real, seconds: real, before: seq<Observation>, o: Observation,
                                        after: seq<Observation>, minimumStable: nat)
    requires !Late(before, start + seconds) && o.now >= start + seconds
    ensures var state := Run(InitialState(binding, start, seconds), before + [o] + after, minimumStable);
            && state.status == TimedOut && state.stable == 0
            && state.reasons == (if o.reasons != [] then o.reasons
                                 else if before != [] && before[|before| - 1].reasons != [] then before[|before| - 1].reasons
                                 else ["compatibility-deadline"])
            && state.observedProfile == if before == [] then None else before[|before| - 1].profile
  {
    var all := before + [o] + after;
    if after == [] {
      assert all == before + [o] && all[..|all| - 1] == before;
      RunSays(binding, start, seconds, before, minimumStable);
    } else {
      assert all[..|all| - 1] == before + [o] + after[..|after| - 1];
      TimesOutWith(binding, start, seconds, before, o, after[..|after| - 1], minimumStable);
    }
  }

  /** No observation changes what the check is bound to, its deadline or its admission. */
  lemma {:induction false} RunKeepsBinding(binding: Binding, start: real, seconds: real, observations: seq<Observation>,
                                          minimumStable: nat)
    ensures var state := Run(InitialState(binding, start, seconds), observations, minimumStable);
            && state.binding == binding && state.firstInvocation == start && state.deadline == start + seconds
            && state.admission == AdmissionHeld
  {
    if observations != [] { RunKeepsBinding(binding, start, seconds, observations[..|observations| - 1], minimumStable); }
  }

  /** The state refines its history: after any observations it is timed out exactly when one came at or
      after the deadline, and otherwise compatible exactly when the last one was clean and the clean
      observations of its profile that end the history are at least the minimum. */
  lemma {:induction false} RefinesHistory(binding: Binding, start: real, seconds: real, observations: seq<Observation>,
                                          minimumStable: nat)
    requires observations != []
    ensures var state := Run(InitialState(binding, start, seconds), observations, minimumStable);
            && (state.status == TimedOut <==> exists o :: o in observations && o.now >= start + seconds)
            && (state.status == Compatible
                <==> && !Late(observations, start + seconds)
                     && observations[|observations| - 1].reasons == []
                     && Block(observations, LatestProfile(observations)) >= minimumStable)
            && (state.status == Incompatible
                <==> !Late(observations, start + seconds) && observations[|observations| - 1].reasons != [])
  {
    RunTimesOut(binding, start, seconds, observations, minimumStable);
    if !Late(observations, start + seconds) { RunSays(binding, start, seconds, observations, minimumStable); }
  }
}
