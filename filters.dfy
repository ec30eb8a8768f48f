/** The filter options of the editor, the point update a slider event makes
    to them, and the CSS filter descriptor built from them. */
module Filters {
  import opened Decimal

  datatype Range = Range(min: int, max: int)

  /** An option's current setting: the defaults are numbers, while a slider
      event stores the widget's value string as it is, without parsing it. */
  datatype Value = Number(n: nat) | Text(s: string)

  datatype FilterOption = FilterOption(name: string, property: string, value: Value, range: Range, unit: string)

  /** The seven options the component starts with, in application order. */
  const DefaultOptions: seq<FilterOption> := [
    FilterOption("Brightness", "brightness", Number(100), Range(0, 200), "%"),
    FilterOption("Contrast", "contrast", Number(100), Range(0, 200), "%"),
    FilterOption("Saturation", "saturate", Number(100), Range(0, 200), "%"),
    FilterOption("Grayscale", "grayscale", Number(0), Range(0, 100), "%"),
    FilterOption("Sepia", "sepia", Number(0), Range(0, 100), "%"),
    FilterOption("Hue Rotate", "hue-rotate", Number(0), Range(0, 360), "deg"),
    FilterOption("Blur", "blur", Number(0), Range(0, 20), "px")
  ]

  /** Two options agree on everything except their current value. */
  predicate SameLayout(a: FilterOption, b: FilterOption) {
    a.name == b.name && a.property == b.property && a.range == b.range && a.unit == b.unit
  }

  /** The options keep the default count, order and fields, whatever their values. */
  predicate DefaultLayout(options: seq<FilterOption>) {
    |options| == |DefaultOptions| &&
    forall j :: 0 <= j < |options| ==> SameLayout(options[j], DefaultOptions[j])
  }

  // ---------------------------------------------------------------------------
  // The point update of a slider event

  /** The `map` over the options with index: `first` is the index of
      options[0] in the whole list; the option whose index is `selected` gets
      the new value, every other option is passed on as it is. */
  function UpdateFrom(options: seq<FilterOption>, first: int, selected: int, raw: string): (r: seq<FilterOption>)
    ensures |r| == |options|
    ensures forall j :: 0 <= j < |options| && first + j != selected ==> r[j] == options[j]
    ensures forall j :: 0 <= j < |options| && first + j == selected ==> r[j] == options[j].(value := Text(raw))
    decreases |options|
  {
    if options == [] then []
    else
      [if first == selected then options[0].(value := Text(raw)) else options[0]]
      + UpdateFrom(options[1..], first + 1, selected, raw)
  }

  /** A slider change for the option at `selected`: only that option changes,
      only in its value, and the value is stored verbatim (no clamping to the
      option's range). An index that names no option changes nothing. */
  function SetValueAt(options: seq<FilterOption>, selected: int, raw: string): (r: seq<FilterOption>)
    ensures |r| == |options|
    ensures forall j :: 0 <= j < |options| && j != selected ==> r[j] == options[j]
    ensures 0 <= selected < |options| ==>
              SameLayout(r[selected], options[selected]) && r[selected].value == Text(raw)
    ensures !(0 <= selected < |options|) ==> r == options
  {
    var r := UpdateFrom(options, 0, selected, raw);
    assert !(0 <= selected < |options|) ==> r == options by {
      if !(0 <= selected < |options|) {
        assert forall j :: 0 <= j < |options| ==> r[j] == options[j];
      }
    }
    r
  }

  /** A slider change keeps every option's name, property, range and unit. */
  lemma SetValueKeepsLayout(options: seq<FilterOption>, selected: int, raw: string)
    requires DefaultLayout(options)
    ensures DefaultLayout(SetValueAt(options, selected, raw))
  {
    var r := SetValueAt(options, selected, raw);
    forall j | 0 <= j < |r|
      ensures SameLayout(r[j], DefaultOptions[j])
    {
      assert SameLayout(r[j], options[j]);
    }
  }

  // ---------------------------------------------------------------------------
  // The filter descriptor

  /** What a template literal makes of a value. */
  function RenderValue(v: Value): string {
    match v
    case Number(n) => NatToString(n)
    case Text(s) => s
  }

  /** One option's term, `property(value unit)` with nothing between the
      value and its unit. */
  function Term(o: FilterOption): string {
    o.property + "(" + RenderValue(o.value) + o.unit + ")"
  }

  /** The options mapped to their terms, one per option, in order. */
  function Terms(options: seq<FilterOption>): (ts: seq<string>)
    ensures |ts| == |options|
    ensures forall j :: 0 <= j < |options| ==> ts[j] == Term(options[j])
  {
    if options == [] then [] else [Term(options[0])] + Terms(options[1..])
  }

  /** Array join: the parts with `sep` between neighbours; no parts give "". */
  function Join(parts: seq<string>, sep: string): string {
    if |parts| == 0 then ""
    else if |parts| == 1 then parts[0]
    else parts[0] + sep + Join(parts[1..], sep)
  }

  /** The canonical filter descriptor: the terms joined by single spaces. */
  function FilterString(options: seq<FilterOption>): string {
    Join(Terms(options), " ")
  }

  /** String split on one character, the reference inverse of Join: the
      pieces between separators, and one empty piece for the empty string. */
  function Split(s: string, c: char): (parts: seq<string>)
    ensures |parts| >= 1
  {
    if s == [] then [""]
    else if s[0] == c then [""] + Split(s[1..], c)
    else
      var rest := Split(s[1..], c);
      [[s[0]] + rest[0]] + rest[1..]
  }

  lemma {:induction false} SplitWithout(t: string, c: char)
    requires c !in t
    ensures Split(t, c) == [t]
  {
    if t != [] {
      SplitWithout(t[1..], c);
      assert [t[0]] + t[1..] == t;
    }
  }

  lemma {:induction false} SplitAfter(t: string, c: char, u: string)
    requires c !in t
    ensures Split(t + [c] + u, c) == [t] + Split(u, c)
  {
    if t == [] {
      assert t + [c] + u == [c] + u;
      assert ([c] + u)[1..] == u;
    } else {
      var s := t + [c] + u;
      assert s[0] == t[0] && s[1..] == t[1..] + [c] + u;
      SplitAfter(t[1..], c, u);
      assert [t[0]] + t[1..] == t;
    }
  }

  /** Splitting a join on its one-character separator gives back the parts,
      provided no part contains the separator. */
  lemma {:induction false} SplitJoin(parts: seq<string>, c: char)
    requires |parts| >= 1
    requires forall k :: 0 <= k < |parts| ==> c !in parts[k]
    ensures Split(Join(parts, [c]), c) == parts
  {
    if |parts| == 1 {
      SplitWithout(parts[0], c);
    } else {
      SplitJoin(parts[1..], c);
      SplitAfter(parts[0], c, Join(parts[1..], [c]));
      assert [parts[0]] + parts[1..] == parts;
    }
  }

  /** No space in an option's property, rendered value or unit. */
  predicate SpaceFree(o: FilterOption) {
    ' ' !in o.property && ' ' !in RenderValue(o.value) && ' ' !in o.unit
  }

  /** A term built from space-free fields holds no space. */
  lemma TermSpaceFree(o: FilterOption)
    requires SpaceFree(o)
    ensures ' ' !in Term(o)
  {
    assert ' ' !in "(" && ' ' !in ")";
  }

  /** The descriptor holds exactly one term per option, in option order,
      separated by single spaces: splitting it at spaces recovers the terms. */
  lemma FilterStringTerms(options: seq<FilterOption>)
    requires |options| >= 1
    requires forall j :: 0 <= j < |options| ==> SpaceFree(options[j])
    ensures Split(FilterString(options), ' ') == Terms(options)
  {
    var ts := Terms(options);
    forall k | 0 <= k < |ts|
      ensures ' ' !in ts[k]
    {
      TermSpaceFree(options[k]);
    }
    SplitJoin(ts, ' ');
  }

  /** Whatever the edit history, a descriptor built from options in the
      default layout names the default properties and units in default order. */
  lemma LayoutTerms(options: seq<FilterOption>)
    requires DefaultLayout(options)
    ensures |Terms(options)| == 7
    ensures forall j :: 0 <= j < 7 ==>
              Terms(options)[j] == DefaultOptions[j].property + "(" + RenderValue(options[j].value) + DefaultOptions[j].unit + ")"
  {
    forall j | 0 <= j < 7
      ensures Terms(options)[j] == DefaultOptions[j].property + "(" + RenderValue(options[j].value) + DefaultOptions[j].unit + ")"
    {
      assert SameLayout(options[j], DefaultOptions[j]);
    }
  }

  /** A slider change alters the term of the selected option only, and that
      term carries the new value string verbatim. */
  lemma SetValueTerms(options: seq<FilterOption>, selected: int, raw: string, j: int)
    requires 0 <= j < |options|
    ensures var ts := Terms(SetValueAt(options, selected, raw));
            |ts| == |options| &&
            (j != selected ==> ts[j] == Terms(options)[j]) &&
            (j == selected ==> ts[j] == options[j].property + "(" + raw + options[j].unit + ")")
  {
  }

  /** The default options contain no space anywhere in their terms. */
  lemma DefaultsSpaceFree()
    ensures forall j :: 0 <= j < |DefaultOptions| ==> SpaceFree(DefaultOptions[j])
  {
    forall j | 0 <= j < |DefaultOptions|
      ensures SpaceFree(DefaultOptions[j])
    {
      NumberSpaceFree(DefaultOptions[j].value.n);
    }
  }

  /** Every default value lies within its option's range. */
  lemma DefaultsInRange()
    ensures forall j :: 0 <= j < |DefaultOptions| ==>
              DefaultOptions[j].value.Number? &&
              DefaultOptions[j].range.min <= DefaultOptions[j].value.n <= DefaultOptions[j].range.max
  {
  }

  /** A rendered number holds no space. */
  lemma NumberSpaceFree(n: nat)
    ensures ' ' !in RenderValue(Number(n))
  {
    var s := NatToString(n);
    assert forall i :: 0 <= i < |s| ==> s[i] != ' ';
  }

  /** Splitting the default descriptor at spaces gives its seven terms. */
  lemma DefaultFilterStringTerms()
    ensures Split(FilterString(DefaultOptions), ' ') == Terms(DefaultOptions)
  {
    DefaultsSpaceFree();
    FilterStringTerms(DefaultOptions);
  }

  /** The two numbers the defaults hold, as the descriptor shows them. */
  lemma Renderings()
    ensures NatToString(0) == "0" && NatToString(100) == "100"
  {
    assert NatToString(10) == "10";
  }

  lemma {:induction false} JoinSeven(ts: seq<string>)
    requires |ts| == 7
    ensures Join(ts, " ") == ts[0] + " " + ts[1] + " " + ts[2] + " " + ts[3] + " " + ts[4] + " " + ts[5] + " " + ts[6]
  {
    var j6 := Join(ts[6..], " ");
    assert ts[5..][1..] == ts[6..];
    var j5 := Join(ts[5..], " ");
    assert j5 == ts[5] + " " + j6;
    assert ts[4..][1..] == ts[5..];
    var j4 := Join(ts[4..], " ");
    assert j4 == ts[4] + " " + j5;
    assert ts[3..][1..] == ts[4..];
    var j3 := Join(ts[3..], " ");
    assert j3 == ts[3] + " " + j4;
    assert ts[2..][1..] == ts[3..];
    var j2 := Join(ts[2..], " ");
    assert j2 == ts[2] + " " + j3;
    assert ts[1..][1..] == ts[2..];
    var j1 := Join(ts[1..], " ");
    assert j1 == ts[1] + " " + j2;
  }

  /** The descriptor of seven options whose last six are the defaults: the
      first term, then the six default terms, each after one space. */
  lemma FirstTermThenDefaults(options: seq<FilterOption>)
    requires |options| == 7 && options[1..] == DefaultOptions[1..]
    ensures FilterString(options)
            == Term(options[0]) + " " + "contrast(100%)" + " " + "saturate(100%)" + " " + "grayscale(0%)"
             + " " + "sepia(0%)" + " " + "hue-rotate(0deg)" + " " + "blur(0px)"
  {
    Renderings();
    var ts := Terms(options);
    assert ts[1] == "contrast(100%)" && ts[2] == "saturate(100%)" && ts[3] == "grayscale(0%)";
    assert ts[4] == "sepia(0%)" && ts[5] == "hue-rotate(0deg)" && ts[6] == "blur(0px)";
    JoinSeven(ts);
  }

  /** With no edits, the descriptor is exactly
      "brightness(100%) contrast(100%) saturate(100%) grayscale(0%) sepia(0%) hue-rotate(0deg) blur(0px)",
      written here term by term. */
  lemma DefaultFilterString()
    ensures FilterString(DefaultOptions)
            == "brightness(100%)" + " " + "contrast(100%)" + " " + "saturate(100%)" + " " + "grayscale(0%)"
             + " " + "sepia(0%)" + " " + "hue-rotate(0deg)" + " " + "blur(0px)"
  {
    assert Term(DefaultOptions[0]) == "brightness(100%)" by {
      Renderings();
    }
    FirstTermThenDefaults(DefaultOptions);
  }

  /** Setting brightness to "50" changes the first term only. */
  lemma BrightnessFifty()
    ensures FilterString(SetValueAt(DefaultOptions, 0, "50"))
            == "brightness(50%)" + " " + "contrast(100%)" + " " + "saturate(100%)" + " " + "grayscale(0%)"
             + " " + "sepia(0%)" + " " + "hue-rotate(0deg)" + " " + "blur(0px)"
  {
    var r := SetValueAt(DefaultOptions, 0, "50");
    assert r[1..] == DefaultOptions[1..];
    assert Term(r[0]) == "brightness(50%)" by {
      assert SameLayout(r[0], DefaultOptions[0]) && r[0].value == Text("50");
    }
    FirstTermThenDefaults(r);
  }

  /** Nothing holds a value inside its range: "500" is stored and rendered
      although brightness ranges up to 200. */
  lemma NoClamping()
    ensures DefaultOptions[0].range.max == 200
    ensures SetValueAt(DefaultOptions, 0, "500")[0].value == Text("500")
    ensures Term(SetValueAt(DefaultOptions, 0, "500")[0]) == "brightness(500%)"
  {
    var r := SetValueAt(DefaultOptions, 0, "500");
    assert Term(r[0]) == "brightness(500%)" by {
      assert SameLayout(r[0], DefaultOptions[0]) && r[0].value == Text("500");
    }
  }
}
