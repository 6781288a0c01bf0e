/** A project card on the dashboard: the colour palette shared with the create dialog, the
    colour dot's style class and the member count's wording. */
module ProjectCard {

  /** One entry of the palette: a display name, the hex value stored on the project, and the
      style class that paints the dot. */
  datatype ColorOption = ColorOption(name: string, value: string, className: string)

  const ProjectColors: seq<ColorOption> := [
    ColorOption("Blue", "#3498db", "bg-[#3498db]"),
    ColorOption("Green", "#2ecc71", "bg-[#2ecc71]"),
    ColorOption("Purple", "#9b59b6", "bg-[#9b59b6]"),
    ColorOption("Orange", "#e67e22", "bg-[#e67e22]"),
    ColorOption("Red", "#e74c3c", "bg-[#e74c3c]"),
    ColorOption("Teal", "#1abc9c", "bg-[#1abc9c]")
  ]

  /** The class used when the project's colour is not in the palette. */
  const FallbackClass := "bg-primary"

  /** `options.find(pc => pc.value === color)?.className || fallback`: the class of the first
      entry with that value, unless there is none or its class is empty. */
  function ClassFor(options: seq<ColorOption>, color: string): (c: string)
    ensures (forall i :: 0 <= i < |options| ==> options[i].value != color) ==> c == FallbackClass
    ensures forall i :: (0 <= i < |options| && options[i].value == color
      && (forall j :: 0 <= j < i ==> options[j].value != color)) ==>
      c == if options[i].className == "" then FallbackClass else options[i].className
  {
    if options == [] then FallbackClass
    else if options[0].value == color then
      if options[0].className == "" then FallbackClass else options[0].className
    else
      var c := ClassFor(options[1..], color);
      assert forall i :: 1 <= i < |options| ==> options[i] == options[1..][i - 1];
      c
  }

  /** `projectColorStyle` for a project of colour `color`. */
  function ColorClass(color: string): string
  {
    ClassFor(ProjectColors, color)
  }

  /** The palette has six entries with distinct values, each painted by `bg-[<value>]`. */
  lemma PaletteShape()
    ensures |ProjectColors| == 6
    ensures forall i :: 0 <= i < |ProjectColors| ==>
      ProjectColors[i].className == "bg-[" + ProjectColors[i].value + "]"
    ensures forall i, j :: 0 <= i < j < |ProjectColors| ==> ProjectColors[i].value != ProjectColors[j].value
  {
    forall i | 0 <= i < |ProjectColors|
      ensures ProjectColors[i].className == "bg-[" + ProjectColors[i].value + "]"
    {
      PaletteEntryClass(i);
    }
    PaletteValuesDistinct();
  }

  /** One entry's class is `bg-[<value>]`. */
  lemma PaletteEntryClass(i: nat)
    requires i < |ProjectColors|
    ensures ProjectColors[i].className == "bg-[" + ProjectColors[i].value + "]"
  {
    var c := ProjectColors[i];
    assert |c.value| == 7 && |c.className| == 12;
    forall n | 0 <= n < 12 ensures c.className[n] == ("bg-[" + c.value + "]")[n] {
    }
  }

  /** No two entries share a value: they differ in the first or second hex digit. */
  lemma PaletteValuesDistinct()
    ensures forall i, j :: 0 <= i < j < |ProjectColors| ==> ProjectColors[i].value != ProjectColors[j].value
  {
    var v := seq(6, i requires 0 <= i < 6 => ProjectColors[i].value);
    assert v[0][1] == '3' && v[1][1] == '2' && v[2][1] == '9' && v[3][1] == 'e' && v[4][1] == 'e' && v[5][1] == '1';
    assert v[3][2] == '6' && v[4][2] == '7';
    forall i, j | 0 <= i < j < |ProjectColors| ensures ProjectColors[i].value != ProjectColors[j].value {
      assert v[i] == ProjectColors[i].value && v[j] == ProjectColors[j].value;
      if i == 3 && j == 4 {
        assert v[i][2] != v[j][2];
      } else {
        assert v[i][1] != v[j][1];
      }
    }
  }

  /** A palette colour is painted with its own class; any other colour gets the fallback. */
  lemma {:induction false} ColorClassOfPalette(color: string)
    ensures forall i :: 0 <= i < |ProjectColors| && ProjectColors[i].value == color ==>
      ColorClass(color) == ProjectColors[i].className
    ensures (forall i :: 0 <= i < |ProjectColors| ==> ProjectColors[i].value != color) ==>
      ColorClass(color) == FallbackClass
  {
    PaletteShape();
  }

  /** The noun after the member count: singular for exactly one member. */
  function MemberNoun(count: nat): (noun: string)
    ensures noun == "member" <==> count == 1
    ensures noun == "member" || noun == "members"
  {
    "member" + (if count == 1 then "" else "s")
  }
}
