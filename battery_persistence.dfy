/** Saving and restoring the battery predictor: its state is flattened into
    a record of vectors and numbers, and a record read back is checked
    (vector lengths, and factors between 0 and 1) before it becomes a
    predictor again. The JSON text and the state file are not modelled. */
module BatteryPersistence {
  import opened Wrappers
  import BP = BatteryProfile

  /** The number of features of the recursive least-squares model. */
  const NUM_FEATURES: nat := 12

  datatype RlsModel = RlsModel(weights: seq<real>, pMatrix: seq<real>, lambda: real, sampleCount: nat)

  datatype BatteryPredictor = BatteryPredictor(
    rlsModel: RlsModel,
    usageProfile: BP.ProfileState,
    ewmaPower: Option<real>,
    ewmaAlpha: real)

  /** The saved record. */
  datatype PredictorState = PredictorState(
    rlsWeights: seq<real>,
    rlsPMatrix: seq<real>,
    rlsLambda: real,
    rlsSampleCount: nat,
    profileSlots: seq<real>,
    profileCounts: seq<nat>,
    profileAlpha: real,
    ewmaPower: Option<real>,
    ewmaAlpha: real)

  /** `from_predictor`: every field copied. */
  function FromPredictor(p: BatteryPredictor): PredictorState {
    PredictorState(
      p.rlsModel.weights, p.rlsModel.pMatrix, p.rlsModel.lambda, p.rlsModel.sampleCount,
      p.usageProfile.slots, p.usageProfile.counts, p.usageProfile.alpha,
      p.ewmaPower, p.ewmaAlpha)
  }

  predicate InUnitRange(x: real) {
    0.0 <= x <= 1.0
  }

  /** `to_predictor`: the checks in order, the first failing one giving its
      error; when all pass, every field is copied back. */
  function ToPredictor(s: PredictorState): Result<BatteryPredictor, string> {
    if |s.rlsWeights| != NUM_FEATURES then Err("invalid rls_weights length")
    else if |s.rlsPMatrix| != NUM_FEATURES * NUM_FEATURES then Err("invalid rls_p_matrix length")
    else if |s.profileSlots| != BP.NUM_SLOTS then Err("invalid profile_slots length")
    else if |s.profileCounts| != BP.NUM_SLOTS then Err("invalid profile_counts length")
    else if !InUnitRange(s.rlsLambda) then Err("invalid rls_lambda")
    else if !InUnitRange(s.profileAlpha) then Err("invalid profile_alpha")
    else if !InUnitRange(s.ewmaAlpha) then Err("invalid ewma_alpha")
    else
      Ok(BatteryPredictor(
        RlsModel(s.rlsWeights, s.rlsPMatrix, s.rlsLambda, s.rlsSampleCount),
        BP.ProfileState(s.profileSlots, s.profileCounts, s.profileAlpha),
        s.ewmaPower, s.ewmaAlpha))
  }

  /** The checks `to_predictor` makes. */
  predicate ValidState(s: PredictorState) {
    && |s.rlsWeights| == 12 && |s.rlsPMatrix| == 144
    && |s.profileSlots| == 336 && |s.profileCounts| == 336
    && InUnitRange(s.rlsLambda) && InUnitRange(s.profileAlpha) && InUnitRange(s.ewmaAlpha)
  }

  /** A record is accepted exactly when every check passes, and then it is
      turned back into the very same record. */
  lemma ToPredictorAccepts(s: PredictorState)
    ensures ToPredictor(s).Ok? <==> ValidState(s)
    ensures ToPredictor(s).Ok? ==> FromPredictor(ToPredictor(s).value) == s
  {
  }

  /** The shape of a predictor that saves into a valid record. */
  predicate WellShaped(p: BatteryPredictor) {
    ValidState(FromPredictor(p))
  }

  /** Saving and restoring a well-shaped predictor gives it back unchanged,
      sample count, moving average and profile included; an ill-shaped one
      is refused. */
  lemma SaveRestoreRoundTrip(p: BatteryPredictor)
    ensures WellShaped(p) ==> ToPredictor(FromPredictor(p)) == Ok(p)
    ensures !WellShaped(p) ==> ToPredictor(FromPredictor(p)).Err?
  {
  }

  /** A new profile with a factor in range, beside a 12-feature model with
      a forgetting factor in range, is well shaped. */
  lemma NewProfileSaves(rls: RlsModel, profileAlpha: real, defaultPower: real, ewmaPower: Option<real>, ewmaAlpha: real)
    requires |rls.weights| == NUM_FEATURES && |rls.pMatrix| == NUM_FEATURES * NUM_FEATURES
    requires InUnitRange(rls.lambda) && InUnitRange(profileAlpha) && InUnitRange(ewmaAlpha)
    ensures WellShaped(BatteryPredictor(rls, BP.NewProfile(profileAlpha, defaultPower), ewmaPower, ewmaAlpha))
  {
  }
}
