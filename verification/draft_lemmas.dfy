/**
 * Properties of the draft wizard over whole sequences of handler calls: the
 * step marker never moves back, replaying a step changes nothing more, and
 * the forms filled in order lead a fresh draft to the listing-details step.
 */
module DraftLemmas {
  import opened Results
  import opened PropertyTypes
  import opened DraftRouter

  /** One call of a step handler; for the last step, only its write to the draft table. */
  datatype DraftCall =
    | Step1(input1: Step1Input)
    | Step2(input2: Step2Input)
    | Step4(input4: Step4Input)
    | Step5(input5: Step5Input)
    | Step6(input6: Step6Input)
    | Step7(input7: Step7Input)
    | Step8(input8: Step8Input)
  {
    function Uid(): Uid {
      match this
      case Step1(i) => i.uid
      case Step2(i) => i.uid
      case Step4(i) => i.uid
      case Step5(i) => i.uid
      case Step6(i) => i.uid
      case Step7(i) => i.uid
      case Step8(i) => i.uid
    }
  }

  function Handle(drafts: DraftStore, localities: map<Uid, Locality>, user: Uid, call: DraftCall)
    : Result<Saved, ErrorCode>
  {
    match call
    case Step1(i) => SaveDraftStep1(drafts, user, i)
    case Step2(i) => SaveDraftStep2(drafts, localities, user, i)
    case Step4(i) => SaveDraftStep4(drafts, user, i)
    case Step5(i) => SaveDraftStep5(drafts, user, i)
    case Step6(i) => SaveDraftStep6(drafts, user, i)
    case Step7(i) => SaveDraftStep7(drafts, user, i)
    case Step8(i) => CompleteDraft(drafts, user, i.uid)
  }

  /** The draft table after a call: the written table, or the same table when the call throws. */
  function Apply(drafts: DraftStore, localities: map<Uid, Locality>, user: Uid, call: DraftCall): DraftStore {
    match Handle(drafts, localities, user, call)
    case Ok(saved) => saved.drafts
    case Err(_) => drafts
  }

  /** The draft table after a sequence of calls, each made by the given user. */
  function Replay(drafts: DraftStore, localities: map<Uid, Locality>, calls: seq<(Uid, DraftCall)>): DraftStore
    decreases |calls|
  {
    if |calls| == 0 then drafts
    else Replay(Apply(drafts, localities, calls[0].0, calls[0].1), localities, calls[1..])
  }

  /**
   * One call keeps the set of drafts, leaves every other draft alone, and
   * never moves the marker of the written draft to an earlier step.
   */
  lemma CallNeverMovesBack(drafts: DraftStore, localities: map<Uid, Locality>, user: Uid, call: DraftCall, id: Uid)
    requires id in drafts
    ensures Apply(drafts, localities, user, call).Keys == drafts.Keys
    ensures id != call.Uid() ==> Apply(drafts, localities, user, call)[id] == drafts[id]
    ensures Rank(Apply(drafts, localities, user, call)[id].currentStep) >= Rank(drafts[id].currentStep)
  {
    var r := Handle(drafts, localities, user, call);
    if r.Ok? && id == call.Uid() {
      var before := drafts[id].currentStep;
      SuccessorMovesForward(before, drafts[id].rentType);
      SuccessorMovesForward(before, None);
    }
  }

  /** Over any sequence of calls, by any users, no draft's marker moves back. */
  lemma {:induction false} StepNeverMovesBack(
    drafts: DraftStore, localities: map<Uid, Locality>, calls: seq<(Uid, DraftCall)>, id: Uid)
    requires id in drafts
    ensures Replay(drafts, localities, calls).Keys == drafts.Keys
    ensures Rank(Replay(drafts, localities, calls)[id].currentStep) >= Rank(drafts[id].currentStep)
    decreases |calls|
  {
    if |calls| > 0 {
      var next := Apply(drafts, localities, calls[0].0, calls[0].1);
      CallNeverMovesBack(drafts, localities, calls[0].0, calls[0].1, id);
      StepNeverMovesBack(next, localities, calls[1..], id);
    }
  }

  /** Replaying a call with the same input changes nothing more. */
  lemma ReplayIsIdempotent(drafts: DraftStore, localities: map<Uid, Locality>, user: Uid, call: DraftCall)
    ensures Apply(Apply(drafts, localities, user, call), localities, user, call) == Apply(drafts, localities, user, call)
  {
    var once := Apply(drafts, localities, user, call);
    var uid := call.Uid();
    if Handle(drafts, localities, user, call).Ok? {
      var d := once[uid];
      var r2 := Handle(once, localities, user, call);
      assert r2.Ok?;
      assert r2.value.draft == d;
      assert once[uid := d] == once;
    }
  }

  /** A failed call (no such draft of the caller's, or unknown locality) leaves every draft as it was. */
  lemma FailedCallChangesNothing(drafts: DraftStore, localities: map<Uid, Locality>, user: Uid, call: DraftCall)
    requires FindDraft(drafts, call.Uid(), user).None? || (call.Step2? && call.input2.localityUid !in localities)
    ensures Handle(drafts, localities, user, call).Err?
    ensures Apply(drafts, localities, user, call) == drafts
  {
  }

  /**
   * A draft at the first step whose owner fills the forms in order (rent
   * type, address, instructions, rooms, amenities, images) reaches the
   * listing-details step, whatever the rent type; only a short-term rental
   * passes through the amenities step.
   */
  lemma FormsInOrderReachListingDetails(
    drafts: DraftStore, localities: map<Uid, Locality>, user: Uid, uid: Uid,
    i1: Step1Input, i2: Step2Input, i4: Step4Input, i5: Step5Input, i6: Step6Input, i7: Step7Input)
    requires uid in drafts && drafts[uid].userId == user && drafts[uid].currentStep == RentTypeStep
    requires i1.uid == uid && i2.uid == uid && i4.uid == uid && i5.uid == uid && i6.uid == uid && i7.uid == uid
    requires i2.localityUid in localities
    ensures var s1 := Apply(drafts, localities, user, Step1(i1));
            var s2 := Apply(s1, localities, user, Step2(i2));
            var s4 := Apply(s2, localities, user, Step4(i4));
            var s5 := Apply(s4, localities, user, Step5(i5));
            var s6 := Apply(s5, localities, user, Step6(i6));
            var s7 := Apply(s6, localities, user, Step7(i7));
            && s1[uid].currentStep == AddressStep
            && s2[uid].currentStep == InstructionsStep
            && s4[uid].currentStep == RoomsStep
            && s5[uid].currentStep == (if i1.rentType == ShortTerm then AmenitiesStep else ImagesStep)
            && s6[uid].currentStep == ImagesStep
            && s7[uid].currentStep == ListingDetailsStep
  {
    var s1 := Apply(drafts, localities, user, Step1(i1));
    assert s1[uid].rentType == Some(i1.rentType);
    var s2 := Apply(s1, localities, user, Step2(i2));
    assert s2[uid].rentType == Some(i1.rentType);
    var s4 := Apply(s2, localities, user, Step4(i4));
    assert s4[uid].rentType == Some(i1.rentType);
  }

  /** The table after the owner fills forms 1 to 7 in order. */
  function FillForms(
    drafts: DraftStore, localities: map<Uid, Locality>, user: Uid,
    i1: Step1Input, i2: Step2Input, i4: Step4Input, i5: Step5Input, i6: Step6Input, i7: Step7Input): DraftStore
  {
    var s1 := Apply(drafts, localities, user, Step1(i1));
    var s2 := Apply(s1, localities, user, Step2(i2));
    var s4 := Apply(s2, localities, user, Step4(i4));
    var s5 := Apply(s4, localities, user, Step5(i5));
    var s6 := Apply(s5, localities, user, Step6(i6));
    Apply(s6, localities, user, Step7(i7))
  }

  /** Filling the forms of one draft keeps the set of drafts and leaves every other draft alone. */
  lemma FillFormsFrame(
    drafts: DraftStore, localities: map<Uid, Locality>, user: Uid, uid: Uid,
    i1: Step1Input, i2: Step2Input, i4: Step4Input, i5: Step5Input, i6: Step6Input, i7: Step7Input, k: Uid)
    requires i1.uid == uid && i2.uid == uid && i4.uid == uid && i5.uid == uid && i6.uid == uid && i7.uid == uid
    requires k in drafts
    ensures FillForms(drafts, localities, user, i1, i2, i4, i5, i6, i7).Keys == drafts.Keys
    ensures k != uid ==> FillForms(drafts, localities, user, i1, i2, i4, i5, i6, i7)[k] == drafts[k]
  {
    var s1 := Apply(drafts, localities, user, Step1(i1));
    var s2 := Apply(s1, localities, user, Step2(i2));
    var s4 := Apply(s2, localities, user, Step4(i4));
    var s5 := Apply(s4, localities, user, Step5(i5));
    var s6 := Apply(s5, localities, user, Step6(i6));
    CallNeverMovesBack(drafts, localities, user, Step1(i1), k);
    CallNeverMovesBack(s1, localities, user, Step2(i2), k);
    CallNeverMovesBack(s2, localities, user, Step4(i4), k);
    CallNeverMovesBack(s4, localities, user, Step5(i5), k);
    CallNeverMovesBack(s5, localities, user, Step6(i6), k);
    CallNeverMovesBack(s6, localities, user, Step7(i7), k);
  }

  /**
   * For every table and every input: a new draft whose owner then fills the
   * forms in order reaches the listing-details step, and every draft that
   * existed before is left as it was.
   */
  lemma NewDraftReachesListingDetails(
    drafts: DraftStore, localities: map<Uid, Locality>, user: Uid, freshId: Uid,
    i1: Step1Input, i2: Step2Input, i4: Step4Input, i5: Step5Input, i6: Step6Input, i7: Step7Input)
    requires freshId !in drafts
    requires i1.uid == freshId && i2.uid == freshId && i4.uid == freshId
    requires i5.uid == freshId && i6.uid == freshId && i7.uid == freshId
    requires i2.localityUid in localities
    ensures var filled := FillForms(NewDraft(drafts, user, freshId).0, localities, user, i1, i2, i4, i5, i6, i7);
            && filled.Keys == drafts.Keys + {freshId}
            && filled[freshId].currentStep == ListingDetailsStep
            && forall k :: k in drafts ==> filled[k] == drafts[k]
  {
    var s0 := NewDraft(drafts, user, freshId).0;
    FormsInOrderReachListingDetails(s0, localities, user, freshId, i1, i2, i4, i5, i6, i7);
    FillFormsFrame(s0, localities, user, freshId, i1, i2, i4, i5, i6, i7, freshId);
    forall k | k in drafts
      ensures FillForms(s0, localities, user, i1, i2, i4, i5, i6, i7)[k] == drafts[k]
    {
      FillFormsFrame(s0, localities, user, freshId, i1, i2, i4, i5, i6, i7, k);
    }
  }

  /**
   * The example run: a new draft, the rent-type form with 12 m² for a
   * long-term rental, then the address form with an existing locality, moves
   * the marker from the rent-type step to the address step to the
   * instructions step.
   */
  lemma NewDraftFirstTwoSteps(
    drafts: DraftStore, localities: map<Uid, Locality>, user: Uid, freshId: Uid, i2: Step2Input)
    requires freshId !in drafts
    requires i2.uid == freshId && i2.localityUid in localities
    ensures var created := NewDraft(drafts, user, freshId).0;
            var s1 := Apply(created, localities, user, Step1(Step1Input(freshId, 12, Location)));
            var s2 := Apply(s1, localities, user, Step2(i2));
            && created[freshId].currentStep == RentTypeStep
            && s1[freshId].currentStep == AddressStep
            && s2[freshId].currentStep == InstructionsStep
  {
  }
}
