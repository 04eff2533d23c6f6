/** A text revealed one character per tick. */
module Typewriter {

  class Typewriter {
    const text: string
    var currentText: string
    var currentIndex: int

    /** What has been revealed is the first `currentIndex` characters of the text. */
    predicate Valid()
      reads this
    {
      0 <= currentIndex <= |text| && currentText == text[..currentIndex]
    }

    constructor (text: string)
      ensures this.text == text
      ensures currentText == "" && currentIndex == 0
      ensures Valid()
    {
      this.text := text;
      currentText := "";
      currentIndex := 0;
    }

    /** One timer expiry: while characters remain, reveal the next one. */
    method Tick() returns (ticked: bool)
      requires Valid()
      modifies this
      ensures Valid()
      ensures ticked <==> old(currentIndex) < |text|
      ensures ticked ==> currentText == old(currentText) + [text[old(currentIndex)]] && currentIndex == old(currentIndex) + 1
      ensures !ticked ==> currentText == old(currentText) && currentIndex == old(currentIndex)
    {
      ticked := currentIndex < |text|;
      if ticked {
        currentText := currentText + [text[currentIndex]];
        currentIndex := currentIndex + 1;
      }
    }

    /** Letting the timers run: every remaining character is revealed, one tick each. */
    method Run() returns (ticks: nat)
      requires Valid()
      modifies this
      ensures Valid()
      ensures currentText == text && currentIndex == |text|
      ensures ticks == |text| - old(currentIndex)
    {
      ticks := 0;
      while currentIndex < |text|
        invariant Valid()
        invariant ticks == currentIndex - old(currentIndex)
        decreases |text| - currentIndex
      {
        var _ := Tick();
        ticks := ticks + 1;
      }
      assert text[..|text|] == text;
    }
  }
}
