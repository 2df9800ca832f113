/**
 * The Create Campaign page: the uploaded documents list, and the single
 * "Verify & Create" button that asks the backend to verify the documents and
 * then to create the campaign, tracking two step statuses as it goes.
 *
 * The two requests are given as functions from the request to how its
 * response ended; the page's own state before a click is a parameter.
 */
module CreateCampaignPage {
  import opened Wrappers

  // ---------------------------------------------------------------------------
  // Uploads

  function Indices(n: nat): (r: seq<nat>)
    ensures |r| == n && forall i :: 0 <= i < n ==> r[i] == i
  {
    if n == 0 then [] else Indices(n - 1) + [n - 1]
  }

  /** `order` lists each of the indices `0 .. n - 1` exactly once. */
  predicate IsPermutation(order: seq<nat>, n: nat) {
    multiset(order) == multiset(Indices(n))
  }

  lemma PermutationInRange(order: seq<nat>, n: nat)
    requires IsPermutation(order, n)
    ensures forall k :: 0 <= k < |order| ==> order[k] < n
  {
    forall k | 0 <= k < |order| ensures order[k] < n {
      assert order[k] in multiset(Indices(n));
    }
  }

  /** The files at the listed indices, in the listed order. */
  function Pick(order: seq<nat>, files: seq<string>): (r: seq<string>)
    requires forall k :: 0 <= k < |order| ==> order[k] < |files|
    ensures |r| == |order| && forall k :: 0 <= k < |r| ==> r[k] == files[order[k]]
  {
    seq(|order|, k requires 0 <= k < |order| => files[order[k]])
  }

  lemma PickConcat(u: seq<nat>, v: seq<nat>, files: seq<string>)
    requires forall k :: 0 <= k < |u| ==> u[k] < |files|
    requires forall k :: 0 <= k < |v| ==> v[k] < |files|
    ensures Pick(u + v, files) == Pick(u, files) + Pick(v, files)
  {
  }

  /** `b` without its `j`-th element. */
  function RemoveAt(b: seq<nat>, j: nat): (r: seq<nat>)
    requires j < |b|
    ensures |r| == |b| - 1
  {
    b[..j] + b[j + 1..]
  }

  /** Removing the `j`-th index removes its file from the picked multiset. */
  lemma PickRemoveAt(b: seq<nat>, j: nat, files: seq<string>)
    requires j < |b| && forall k :: 0 <= k < |b| ==> b[k] < |files|
    ensures forall k :: 0 <= k < |RemoveAt(b, j)| ==> RemoveAt(b, j)[k] < |files|
    ensures multiset(b) == multiset(RemoveAt(b, j)) + multiset{b[j]}
    ensures multiset(Pick(b, files)) == multiset(Pick(RemoveAt(b, j), files)) + multiset{files[b[j]]}
  {
    var left, right := b[..j], b[j + 1..];
    var rest := RemoveAt(b, j);
    forall k | 0 <= k < |rest| ensures rest[k] < |files| {
      if k < j { assert rest[k] == b[k]; } else { assert rest[k] == b[k + 1]; }
    }
    assert b == left + [b[j]] + right;
    assert multiset(b) == multiset(left) + multiset{b[j]} + multiset(right);
    assert Pick(b, files) == Pick(left, files) + [files[b[j]]] + Pick(right, files);
    PickConcat(left, right, files);
  }

  lemma Cancel<T>(m1: multiset<T>, m2: multiset<T>, x: T)
    requires m1 + multiset{x} == m2 + multiset{x}
    ensures m1 == m2
  {
    assert m1 == (m1 + multiset{x}) - multiset{x};
    assert m2 == (m2 + multiset{x}) - multiset{x};
  }

  /** Listing the same indices in another order picks the same files in another order. */
  lemma {:induction false} PickPermutes(a: seq<nat>, b: seq<nat>, files: seq<string>)
    requires forall k :: 0 <= k < |a| ==> a[k] < |files|
    requires forall k :: 0 <= k < |b| ==> b[k] < |files|
    requires multiset(a) == multiset(b)
    ensures multiset(Pick(a, files)) == multiset(Pick(b, files))
  {
    if |a| == 0 {
      assert |multiset(b)| == 0;
    } else {
      var x := a[0];
      assert x in multiset(a);
      assert x in b;
      var j :| 0 <= j < |b| && b[j] == x;
      PickRemoveAt(b, j, files);
      PickRemoveAt(a, 0, files);
      Cancel(multiset(RemoveAt(a, 0)), multiset(RemoveAt(b, j)), x);
      PickPermutes(RemoveAt(a, 0), RemoveAt(b, j), files);
    }
  }

  /**
   * `handleFileUpload`: with no file list nothing changes; otherwise every
   * file's data URL is appended once, in the order the readers finish
   * (`order`), after the documents already there.
   */
  function HandleFileUpload(prev: seq<string>, files: Option<seq<string>>, order: seq<nat>): (r: seq<string>)
    requires files.Some? ==> IsPermutation(order, |files.value|)
    ensures files.None? ==> r == prev
    ensures files.Some? ==> |r| == |prev| + |files.value| && r[..|prev|] == prev
    ensures files.Some? ==> multiset(r[|prev|..]) == multiset(files.value)
  {
    if files.None? then prev
    else
      var fs := files.value;
      PermutationInRange(order, |fs|);
      assert |order| == |multiset(order)| == |multiset(Indices(|fs|))| == |fs|;
      PickPermutes(order, Indices(|fs|), fs);
      assert Pick(Indices(|fs|), fs) == fs;
      var r := prev + Pick(order, fs);
      assert r[..|prev|] == prev && r[|prev|..] == Pick(order, fs);
      r
  }

  // ---------------------------------------------------------------------------
  // Verify & Create

  datatype StepStatus = Pending | Active | StepDone | StepError

  /** The form's fields, as typed. */
  datatype Form = Form(title: string, description: string, goalAmount: string, durationDays: string)

  datatype VerifyData = VerifyData(isVerified: bool)
  /** How the verification request ended: an exception, or a JSON body with `success` and maybe `data`. */
  datatype VerifyReply = VerifyThrew | VerifyJson(success: bool, data: Option<VerifyData>)

  datatype CreatedData = CreatedData(campaignId: string)
  datatype CreateReply = CreateThrew | CreateJson(success: bool, data: Option<CreatedData>)

  /** The body of the creation request. */
  datatype CreateBody = CreateBody(
    title: string,
    description: string,
    goalAmount: string,
    durationDays: IntParse,
    medicalDocuments: seq<string>,
    creatorAddress: string)

  datatype Request = VerifyRequest(documents: seq<string>) | CreateRequest(body: CreateBody)

  /** How a click ended. */
  datatype Ending = NoWallet | NoDocuments | VerifyFailed | NotVerified | CreationFailed | Created | Crashed

  /** The state the page renders from: the step statuses, the busy flag, and the step in progress. */
  datatype FlowState = FlowState(statuses: seq<StepStatus>, processing: bool, currentStep: Option<nat>)

  datatype FlowRun = FlowRun(final: FlowState, requests: seq<Request>, navigateTo: Option<CreatedData>, ending: Ending)

  const Initial := FlowState([Pending, Pending], false, None)

  /**
   * Which step number the `catch` block compares against: the one captured
   * when the page rendered the button, or the step actually in progress.
   */
  datatype CatchReads = RenderedStep(step: Option<nat>) | LiveStep

  /** `s.map((v, i) => i === step ? 'error' : v)`. */
  function MarkError(statuses: seq<StepStatus>, step: Option<nat>): (r: seq<StepStatus>)
    ensures |r| == |statuses|
    ensures forall i :: 0 <= i < |r| ==> r[i] == (if step == Some(i) then StepError else statuses[i])
  {
    seq(|statuses|, i requires 0 <= i < |statuses| => if step == Some(i) then StepError else statuses[i])
  }

  function CaughtStep(catchReads: CatchReads, live: nat): Option<nat> {
    match catchReads
    case RenderedStep(step) => step
    case LiveStep => Some(live)
  }

  /** The statuses, requests, navigation and ending once the `try` block is left, before `finally`. */
  datatype Leg = Leg(statuses: seq<StepStatus>, requests: seq<Request>, navigateTo: Option<CreatedData>, ending: Ending)

  /** The second step, entered with statuses `[done, active]`. */
  function CreationLeg(body: CreateBody, create: CreateBody -> CreateReply, catchReads: CatchReads): (l: Leg)
    ensures l.requests == [CreateRequest(body)]
  {
    var requests := [CreateRequest(body)];
    match create(body)
    case CreateThrew => Leg(MarkError([StepDone, Active], CaughtStep(catchReads, 1)), requests, None, Crashed)
    case CreateJson(success, data) =>
      if !success then Leg([StepDone, StepError], requests, None, CreationFailed)
      else Leg([StepDone, StepDone], requests, data, Created)
  }

  function Body(form: Form, account: string, documents: seq<string>, parseInt: string -> IntParse): CreateBody {
    CreateBody(form.title, form.description, form.goalAmount, parseInt(form.durationDays), documents, account)
  }

  /**
   * `handleVerifyAndCreate` from state `before`. Without a wallet or documents
   * the click changes nothing; otherwise the statuses go to `[active, pending]`,
   * verification runs, and only a verified answer leads to the creation request.
   * Reading `data.isVerified` from a successful body without `data` throws.
   * `finally` always leaves the page idle with no step in progress.
   */
  function VerifyAndCreate(before: FlowState, form: Form, account: Option<string>, documents: seq<string>,
                           parseInt: string -> IntParse, verify: seq<string> -> VerifyReply,
                           create: CreateBody -> CreateReply, catchReads: CatchReads): (run: FlowRun)
    ensures run.ending == NoWallet <==> !IsTruthyString(account)
    ensures run.ending == NoDocuments <==> IsTruthyString(account) && |documents| == 0
    ensures run.ending in {NoWallet, NoDocuments} ==> run.final == before && run.requests == []
    ensures !(run.ending in {NoWallet, NoDocuments}) ==>
              && run.final.processing == false && run.final.currentStep == None && |run.final.statuses| == 2
              && 1 <= |run.requests| <= 2 && run.requests[0] == VerifyRequest(documents)
    ensures |run.requests| == 2 <==>
              IsTruthyString(account) && |documents| > 0
              && verify(documents).VerifyJson? && verify(documents).success
              && verify(documents).data.Some? && verify(documents).data.value.isVerified
    ensures |run.requests| == 2 ==> run.requests[1] == CreateRequest(Body(form, account.value, documents, parseInt))
    ensures run.ending == Created <==>
              |run.requests| == 2 && create(run.requests[1].body).CreateJson? && create(run.requests[1].body).success
    ensures run.ending == Created ==> run.navigateTo == create(run.requests[1].body).data
    ensures run.ending != Created ==> run.navigateTo == None
    ensures run.ending == Created ==> run.final.statuses == [StepDone, StepDone]
    ensures run.ending == VerifyFailed <==>
              IsTruthyString(account) && |documents| > 0 && verify(documents).VerifyJson? && !verify(documents).success
    ensures run.ending == NotVerified <==>
              IsTruthyString(account) && |documents| > 0
              && verify(documents).VerifyJson? && verify(documents).success
              && verify(documents).data.Some? && !verify(documents).data.value.isVerified
    ensures run.ending in {VerifyFailed, NotVerified} ==> run.final.statuses == [StepError, Pending] && |run.requests| == 1
    ensures run.ending == CreationFailed <==>
              |run.requests| == 2 && create(run.requests[1].body).CreateJson? && !create(run.requests[1].body).success
    ensures run.ending == CreationFailed ==> run.final.statuses == [StepDone, StepError]
    ensures run.ending == Crashed ==>
              run.final.statuses
                == MarkError(if |run.requests| == 1 then [Active, Pending] else [StepDone, Active],
                             CaughtStep(catchReads, |run.requests| - 1))
  {
    if !IsTruthyString(account) then FlowRun(before, [], None, NoWallet)
    else if |documents| == 0 then FlowRun(before, [], None, NoDocuments)
    else
      var asked := [VerifyRequest(documents)];
      var leg :=
        match verify(documents)
        case VerifyThrew => Leg(MarkError([Active, Pending], CaughtStep(catchReads, 0)), asked, None, Crashed)
        case VerifyJson(success, data) =>
          if !success then Leg([StepError, Pending], asked, None, VerifyFailed)
          else if data.None? then Leg(MarkError([Active, Pending], CaughtStep(catchReads, 0)), asked, None, Crashed)
          else if !data.value.isVerified then Leg([StepError, Pending], asked, None, NotVerified)
          else
            var second := CreationLeg(Body(form, account.value, documents, parseInt), create, catchReads);
            Leg(second.statuses, asked + second.requests, second.navigateTo, second.ending);
      FlowRun(FlowState(leg.statuses, false, None), leg.requests, leg.navigateTo, leg.ending)
  }

  /**
   * Every click leaves the page idle with no step in progress, so whenever the
   * button can be pressed again (it is disabled while processing) the step the
   * page rendered with is `null`: that is the step the next click's `catch` reads.
   */
  lemma IdlePageHasNoStep(before: FlowState, form: Form, account: Option<string>, documents: seq<string>,
                          parseInt: string -> IntParse, verify: seq<string> -> VerifyReply,
                          create: CreateBody -> CreateReply, catchReads: CatchReads)
    requires before.processing == false ==> before.currentStep == None
    ensures var run := VerifyAndCreate(before, form, account, documents, parseInt, verify, create, catchReads);
            run.final.processing == false ==> run.final.currentStep == None
  {
  }

  predicate AnyActive(statuses: seq<StepStatus>) {
    exists i :: 0 <= i < |statuses| && statuses[i] == Active
  }

  /**
   * As written, the `catch` compares against the rendered step, which is
   * always `null`: a verification request that throws leaves the first step
   * shown as active after the flow has ended, and no step marked as failed.
   */
  lemma StaleStepLeavesActive(form: Form, account: string, documents: seq<string>,
                              parseInt: string -> IntParse, create: CreateBody -> CreateReply)
    requires |account| > 0 && |documents| > 0
    ensures var run := VerifyAndCreate(Initial, form, Some(account), documents, parseInt, _ => VerifyThrew, create,
                                       RenderedStep(None));
            run.ending == Crashed && run.final.statuses == [Active, Pending] && !run.final.processing
  {
  }

  /**
   * Reading the step in progress, every click that starts the flow ends with no
   * step shown as active, a step marked as failed exactly when the flow did not
   * create the campaign, and the failed step being the one that was in progress.
   */
  lemma NoStepLeftActive(before: FlowState, form: Form, account: Option<string>, documents: seq<string>,
                         parseInt: string -> IntParse, verify: seq<string> -> VerifyReply,
                         create: CreateBody -> CreateReply)
    requires IsTruthyString(account) && |documents| > 0
    ensures var run := VerifyAndCreate(before, form, account, documents, parseInt, verify, create, LiveStep);
            && !AnyActive(run.final.statuses)
            && (run.ending == Created <==> run.final.statuses == [StepDone, StepDone])
            && (run.ending != Created ==> run.final.statuses[|run.requests| - 1] == StepError)
  {
    var run := VerifyAndCreate(before, form, account, documents, parseInt, verify, create, LiveStep);
    assert |run.final.statuses| == 2;
    assert run.final.statuses[0] != Active && run.final.statuses[1] != Active;
  }
}
