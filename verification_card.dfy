/**
 * The dashboard's verification status card: how many of the email, phone
 * and photo flags are set, the progress percentage, and when the card is
 * shown at all. The card reads `photo_verified`, the flag the onboarding
 * form sets.
 */
module VerificationCard {
  import opened Common
  import opened Schema

  /** The three flags as the card reads them; no profile or a null flag reads as false. */
  function Flags(status: Option<ProfileRow>): seq<bool> {
    if status.None? then [false, false, false]
    else [OrFalse(status.value.emailVerified), OrFalse(status.value.phoneVerified), OrFalse(status.value.photoVerified)]
  }

  predicate IsFullyVerified(status: Option<ProfileRow>) {
    var f := Flags(status);
    f[0] && f[1] && f[2]
  }

  /** `[...].filter(Boolean).length`. */
  function CompletedSteps(status: Option<ProfileRow>): (n: nat)
    ensures n <= 3
  {
    CountTrue(Flags(status))
  }

  /**
   * The percentage as displayed, `Math.round(progress)` of the unrounded
   * `(completedSteps / 3) * 100`; the bar's width uses the unrounded value,
   * which is not modelled.
   */
  function Progress(status: Option<ProfileRow>): int {
    JsRound(100 * CompletedSteps(status), 3)
  }

  /** The progress shown for 0 to 3 steps is 0, 33, 67 and 100, and 100 exactly when fully verified. */
  lemma ProgressValues(status: Option<ProfileRow>)
    ensures CompletedSteps(status) == 3 <==> IsFullyVerified(status)
    ensures Progress(status) == [0, 33, 67, 100][CompletedSteps(status)]
    ensures Progress(status) == 100 <==> IsFullyVerified(status)
    ensures 0 <= Progress(status) <= 100
  {
    var f := Flags(status);
    assert f[1..][1..] == [f[2]];
    assert CountTrue([f[2]]) == (if f[2] then 1 else 0) by {
      assert [f[2]][1..] == [];
    }
    assert CountTrue(f[1..]) == (if f[1] then 1 else 0) + (if f[2] then 1 else 0);
  }

  datatype CardView = HiddenCard | VerifiedCard | StepsCard

  /** The card disappears only when fully verified and the hide timer has fired. */
  function View(status: Option<ProfileRow>, hidden: bool): (v: CardView)
    ensures v == HiddenCard <==> IsFullyVerified(status) && hidden
    ensures v == VerifiedCard <==> IsFullyVerified(status) && !hidden
    ensures v == StepsCard <==> !IsFullyVerified(status)
  {
    if IsFullyVerified(status) && hidden then HiddenCard
    else if IsFullyVerified(status) then VerifiedCard
    else StepsCard
  }
}
