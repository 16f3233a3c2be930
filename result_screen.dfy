/** The result screen of the distance checker: the verdict shown for a
    measured distance and the save button's request and `saving` flag. */
module ResultScreen {
  import opened Wrappers

  /** The `status` string of the screen: 'normal', 'warning' or 'danger'. */
  datatype DistanceLevel = Normal | Warning | Danger

  datatype Verdict = Verdict(
    level: DistanceLevel,
    message: string,
    subMessage: string,
    colorClass: string,
    image: string)

  const NormalVerdict: Verdict := Verdict(Normal, "よくできました！",
    "ばっちりです！いつもこのきょりでスマホをみよう！", "text-green-600",
    "/images/character/character_happy.png")
  const WarningVerdict: Verdict := Verdict(Warning, "ちゅうい！",
    "もう少しはなれてみようね！", "text-yellow-600",
    "/images/character/character_normal.png")
  const DangerVerdict: Verdict := Verdict(Danger, "ちかすぎるよ！",
    "めがつかれちゃうよ。はなれてみよう！", "text-red-600",
    "/images/character/character_surprised.png")

  /** What each level shows. */
  function VerdictFor(level: DistanceLevel): (v: Verdict)
    ensures v.level == level
  {
    match level
    case Normal => NormalVerdict
    case Warning => WarningVerdict
    case Danger => DangerVerdict
  }

  /** The cascade of `let` reassignments: normal unless below 20 cm (danger)
      or below 30 cm (warning). */
  function Classify(distance: int): (v: Verdict)
    ensures v.level == Danger <==> distance < 20
    ensures v.level == Warning <==> 20 <= distance < 30
    ensures v.level == Normal <==> distance >= 30
    ensures v == VerdictFor(v.level)
  {
    if distance < 20 then DangerVerdict
    else if distance < 30 then WarningVerdict
    else NormalVerdict
  }

  /** Each level has its own message, colour and picture. */
  lemma VerdictsDistinguishable(a: DistanceLevel, b: DistanceLevel)
    requires a != b
    ensures VerdictFor(a).message != VerdictFor(b).message
    ensures VerdictFor(a).colorClass != VerdictFor(b).colorClass
    ensures VerdictFor(a).image != VerdictFor(b).image
  {
    assert NormalVerdict.colorClass[5] == 'g' && WarningVerdict.colorClass[5] == 'y' && DangerVerdict.colorClass[5] == 'r';
    assert NormalVerdict.message[0] != WarningVerdict.message[0];
    assert NormalVerdict.message[0] != DangerVerdict.message[0];
    assert WarningVerdict.message[2] != DangerVerdict.message[2];
    assert NormalVerdict.image[28] == 'h' && WarningVerdict.image[28] == 'n' && DangerVerdict.image[28] == 's';
  }

  /** The body posted by `handleSave`. */
  datatype SavePayload = SavePayload(childId: int, distanceCm: int, alertFlag: bool)

  function Payload(distance: int): (p: SavePayload)
    ensures p.childId == 1 && p.distanceCm == distance
    ensures p.alertFlag <==> Classify(distance).level == Danger
  {
    SavePayload(1, distance, distance < 20)
  }

  class Screen {
    const distance: int
    var saving: bool
    var saveNotifications: nat   // calls of `onSave`
    var alertsShown: nat         // failure alerts shown

    constructor (distance: int)
      ensures this.distance == distance && !saving
      ensures saveNotifications == 0 && alertsShown == 0
    {
      this.distance := distance;
      saving := false;
      saveNotifications := 0;
      alertsShown := 0;
    }

    /** Both buttons are disabled while saving. */
    function ButtonsEnabled(): (enabled: bool)
      reads this
      ensures enabled <==> !saving
    {
      !saving
    }

    /** `handleSave`, given the outcome of the POST (a non-ok status is
        rethrown, so it ends in the same catch block as a thrown call).
        `onSave` is called only after an ok response, and `saving` returns to
        false only on failure. */
    method HandleSave(response: Response<()>) returns (posted: SavePayload)
      modifies this
      ensures posted == Payload(distance)
      ensures response.Ok? ==>
        saving && saveNotifications == old(saveNotifications) + 1 && alertsShown == old(alertsShown)
      ensures !response.Ok? ==>
        !saving && saveNotifications == old(saveNotifications) && alertsShown == old(alertsShown) + 1
    {
      saving := true;
      posted := SavePayload(1, distance, distance < 20);
      if response.Ok? {
        saveNotifications := saveNotifications + 1;
      } else {
        alertsShown := alertsShown + 1;
        saving := false;
      }
    }

    /** `handleSave` as written: the request URL is built from the bare
        identifier `NEXT_PUBLIC_API_ENDPOINT`, which is not declared anywhere
        (only `process.env.NEXT_PUBLIC_*` is replaced at build time), so
        building it throws a ReferenceError before any request is sent and
        the handler always ends in its catch block. */
    method HandleSaveAsWritten()
      modifies this
      ensures !saving
      ensures saveNotifications == old(saveNotifications)
      ensures alertsShown == old(alertsShown) + 1
    {
      saving := true;
      // Evaluating the URL throws: the catch block runs.
      alertsShown := alertsShown + 1;
      saving := false;
    }
  }

  /** As written, no distance can ever be saved; with the endpoint taken from
      the environment, an ok response saves it. */
  method SaveDiscrepancy(distance: int) returns (savedAsWritten: nat, savedCorrected: nat)
    ensures savedAsWritten == 0 && savedCorrected == 1
  {
    var asWritten := new Screen(distance);
    asWritten.HandleSaveAsWritten();
    savedAsWritten := asWritten.saveNotifications;

    var corrected := new Screen(distance);
    var _ := corrected.HandleSave(Ok(()));
    savedCorrected := corrected.saveNotifications;
  }
}
