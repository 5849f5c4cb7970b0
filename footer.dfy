/** The footer (src/components/footer.tsx): two social links whose
    background changes to a random palette colour on hover, and a hidden
    pop-up that switches between the register and login forms. */
module Footer {
  const Colors: seq<string> := ["bg-yellow-200", "bg-lime-green", "bg-pink", "bg-orange"]
  const Transparent := "bg-transparent"

  /** What a slot may hold: the resting colour or a palette colour. */
  predicate SlotColor(c: string) {
    c == Transparent || c in Colors
  }

  /** `getRandomColor(current)`: the do-while loop draws palette indices
      until one gives a colour other than `current`. `draws` stands for the
      successive `Math.floor(Math.random() * colors.length)` values; the
      caller supplies a sequence in which some draw differs, which is what
      makes the loop stop. */
  method GetRandomColor(current: string, draws: seq<nat>) returns (color: string, used: nat)
    requires forall i :: 0 <= i < |draws| ==> draws[i] < |Colors|
    requires exists i :: 0 <= i < |draws| && Colors[draws[i]] != current
    ensures used < |draws| && color == Colors[draws[used]]
    ensures color in Colors && color != current
    ensures forall j :: 0 <= j < used ==> Colors[draws[j]] == current
  {
    ghost var stop :| 0 <= stop < |draws| && Colors[draws[stop]] != current;
    used := 0;
    color := Colors[draws[0]];
    while color == current
      invariant used <= stop
      invariant color == Colors[draws[used]]
      invariant forall j :: 0 <= j < used ==> Colors[draws[j]] == current
      decreases stop - used
    {
      used := used + 1;
      color := Colors[draws[used]];
    }
  }

  /** No palette colour is the resting colour, so entering a resting slot
      keeps the first draw. */
  lemma PaletteAvoidsTransparent()
    ensures forall i :: 0 <= i < |Colors| ==> Colors[i] != Transparent
  {
  }

  /** The pop-up's form: registration while `showRegister`, login otherwise. */
  datatype PopupForm = RegisterShown | LoginShown

  function Popup(showRegister: bool): (f: PopupForm)
    ensures f == RegisterShown <==> showRegister
  {
    if showRegister then RegisterShown else LoginShown
  }

  class Footer {
    var bgColor: array<string>
    var showPopup: bool
    var showRegister: bool

    predicate Valid()
      reads this, bgColor
    {
      bgColor.Length == 2 && SlotColor(bgColor[0]) && SlotColor(bgColor[1])
    }

    constructor ()
      ensures Valid() && fresh(bgColor)
      ensures bgColor[..] == [Transparent, Transparent]
      ensures !showPopup && showRegister
    {
      bgColor := new string[2](_ => Transparent);
      showPopup := false;
      showRegister := true;
    }

    /** `handleToggle`. */
    method HandleToggle()
      modifies this
      ensures showRegister == !old(showRegister)
      ensures bgColor == old(bgColor) && showPopup == old(showPopup)
    {
      showRegister := !showRegister;
    }

    /** `handleMouseEvent(index, isEnter)`: copy the slots, change one, and
        install the copy; the old array is left as it was. Entering draws a
        new colour for the slot, leaving restores the resting colour. */
    method HandleMouseEvent(index: nat, isEnter: bool, draws: seq<nat>)
      requires Valid() && index < 2
      requires isEnter ==> forall i :: 0 <= i < |draws| ==> draws[i] < |Colors|
      requires isEnter ==> exists i :: 0 <= i < |draws| && Colors[draws[i]] != bgColor[index]
      modifies this
      ensures Valid() && fresh(bgColor)
      ensures bgColor[1 - index] == old(bgColor[1 - index])
      ensures isEnter ==> bgColor[index] in Colors && bgColor[index] != old(bgColor[index])
      ensures !isEnter ==> bgColor[index] == Transparent
      ensures showPopup == old(showPopup) && showRegister == old(showRegister)
    {
      var newColors := new string[2];
      newColors[0], newColors[1] := bgColor[0], bgColor[1];
      if isEnter {
        var c, _ := GetRandomColor(bgColor[index], draws);
        newColors[index] := c;
      } else {
        newColors[index] := Transparent;
      }
      bgColor := newColors;
    }
  }
}
