/** The registration counter: spots remaining out of 128 and the low-spots
    alert, derived from the current registration count, which the shared
    registration store supplies and which is an input here. */
module RegistrationCounter {
  import Text

  const MaxRegistrations: int := 128
  /** The alert threshold on the spots remaining. */
  const LowSpots: int := 20

  /** `maxRegistrations - registrationCount`, not clamped at zero. */
  function SpotsLeft(registrationCount: int): (spots: int)
    ensures spots + registrationCount == MaxRegistrations
  {
    MaxRegistrations - registrationCount
  }

  /** The alert block is rendered. */
  function AlertShown(registrationCount: int): (shown: bool)
    ensures shown <==> registrationCount > MaxRegistrations - LowSpots
  {
    SpotsLeft(registrationCount) < LowSpots
  }

  datatype SpotsColour = Red | Green

  /** The colour class of the spots figure. */
  function Colour(registrationCount: int): (c: SpotsColour)
    ensures c == Red <==> registrationCount > MaxRegistrations - LowSpots
  {
    if SpotsLeft(registrationCount) < LowSpots then Red else Green
  }

  const AlertPrefix: string := "\U{26A0}\U{FE0F} Hurry! Only "
  const AlertSuffix: string := " spots remaining!"

  /** The alert's text, with the spots figure rendered as a decimal integer. */
  function AlertText(registrationCount: int): (text: string)
    ensures |text| == |AlertPrefix| + |Text.IntToString(SpotsLeft(registrationCount))| + |AlertSuffix|
    ensures text[..|AlertPrefix|] == AlertPrefix
    ensures text[|text| - |AlertSuffix|..] == AlertSuffix
    ensures text[|AlertPrefix|..|text| - |AlertSuffix|] == Text.IntToString(SpotsLeft(registrationCount))
  {
    AlertPrefix + Text.IntToString(SpotsLeft(registrationCount)) + AlertSuffix
  }

  /** The alert appears once more than 108 spots are taken; the figure is red
      exactly while the alert is shown. */
  lemma AlertCondition(registrationCount: int)
    ensures AlertShown(registrationCount) <==> registrationCount > 108
    ensures Colour(registrationCount) == Red <==> AlertShown(registrationCount)
    ensures Colour(registrationCount) == Green <==> !AlertShown(registrationCount)
  {
  }

  /** Over-subscription is shown as a negative number of spots. */
  lemma NotClamped(registrationCount: int)
    requires registrationCount > MaxRegistrations
    ensures SpotsLeft(registrationCount) < 0
    ensures AlertShown(registrationCount)
    ensures Text.IntToString(SpotsLeft(registrationCount))[0] == '-'
  {
  }

  /** The alert text carries the same figure the counter shows. */
  lemma {:induction false} AlertTextCarriesSpots(registrationCount: int)
    ensures var prefix := AlertPrefix;
      var digits := Text.IntToString(SpotsLeft(registrationCount));
      var text := AlertText(registrationCount);
      && text[|prefix|..|prefix| + |digits|] == digits
      && (SpotsLeft(registrationCount) >= 0 ==>
            Text.DigitsValue(text[|prefix|..|prefix| + |digits|]) == SpotsLeft(registrationCount))
  {
    var prefix := AlertPrefix;
    var digits := Text.IntToString(SpotsLeft(registrationCount));
    var text := AlertText(registrationCount);
    assert text == prefix + digits + AlertSuffix;
    assert text[|prefix|..|prefix| + |digits|] == digits;
    if SpotsLeft(registrationCount) >= 0 {
      Text.DigitsValueOfNatToString(SpotsLeft(registrationCount));
    }
  }
}
