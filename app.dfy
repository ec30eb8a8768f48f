/** The editor component: its state (the options, the quality, the selected
    option and the image URL), the events that replace that state, and the
    style object the preview is rendered with. */
module App {
  import opened Filters
  import opened Quality

  datatype Option<T> = None | Some(value: T)

  /** The preview's style: a `filter` entry only when one is present, the
      background image, and the quality. */
  datatype Style = Style(filter: Option<string>, backgroundImage: string, quality: Level)

  /** The style for a given state. When `selected` names no option (as for
      the index -1 the quality slider uses) the style carries no filter
      entry; otherwise its filter is the descriptor of all the options. */
  function ImageStyle(options: seq<FilterOption>, selected: int, imageUrl: string, quality: Level): (s: Style)
    ensures s.backgroundImage == "url(" + imageUrl + ")" && s.quality == quality
    ensures s.filter.Some? <==> 0 <= selected < |options|
    ensures s.filter.Some? ==> s.filter.value == FilterString(options)
  {
    var background := "url(" + imageUrl + ")";
    if 0 <= selected < |options| then Style(Some(FilterString(options)), background, quality)
    else Style(None, background, quality)
  }

  /** Which option is selected affects only whether a filter is present,
      never which filter it is. */
  lemma StyleIgnoresSelection(options: seq<FilterOption>, i: int, j: int, imageUrl: string, quality: Level)
    requires 0 <= i < |options| && 0 <= j < |options|
    ensures ImageStyle(options, i, imageUrl, quality) == ImageStyle(options, j, imageUrl, quality)
  {
  }

  class AppState {
    var options: seq<FilterOption>
    var quality: Level
    var selectedOptionIndex: int
    var imageUrl: string

    /** What every reachable state satisfies: the options keep the default
        count, order and fields, the selected index names one of them, and
        the quality is one of the two levels 1 and 0.1. */
    ghost predicate Valid()
      reads this
    {
      DefaultLayout(options) && 0 <= selectedOptionIndex < |options| &&
      (quality == High || quality == Low)
    }

    /** The initial state: default options, quality 1, the first option
        selected, no image. */
    constructor ()
      ensures Valid()
      ensures options == DefaultOptions && quality == Initial
      ensures selectedOptionIndex == 0 && imageUrl == ""
    {
      options := DefaultOptions;
      quality := Initial;
      selectedOptionIndex := 0;
      imageUrl := "";
    }

    /** A sidebar click on the option at `index`. */
    method SelectOption(index: int)
      requires 0 <= index < |options|
      modifies this
      ensures selectedOptionIndex == index
      ensures options == old(options) && quality == old(quality) && imageUrl == old(imageUrl)
      ensures old(Valid()) ==> Valid()
    {
      selectedOptionIndex := index;
    }

    /** A slider event carrying the widget's value string `raw`. With index
        -1 it sets the quality from the parsed number; otherwise it stores
        `raw` verbatim as the selected option's value. In a valid state the
        index is never -1, so the quality branch is never taken. */
    method HandleSliderChange(raw: string)
      modifies this
      ensures selectedOptionIndex == old(selectedOptionIndex) && imageUrl == old(imageUrl)
      ensures old(selectedOptionIndex) == -1 ==> quality == Parse(raw) && options == old(options)
      ensures old(selectedOptionIndex) != -1 ==>
                quality == old(quality) && options == SetValueAt(old(options), old(selectedOptionIndex), raw)
      ensures old(Valid()) ==> Valid() && quality == old(quality)
    {
      if selectedOptionIndex == -1 {
        quality := Parse(raw);
      } else {
        if Valid() {
          SetValueKeepsLayout(options, selectedOptionIndex, raw);
        }
        options := SetValueAt(options, selectedOptionIndex, raw);
      }
    }

    /** The Quality sidebar entry: flips between 1 and 0.1. */
    method HandleQualityToggle()
      modifies this
      ensures quality == Toggle(old(quality))
      ensures options == old(options) && selectedOptionIndex == old(selectedOptionIndex) && imageUrl == old(imageUrl)
      ensures old(Valid()) ==> Valid()
    {
      quality := Toggle(quality);
    }

    /** The URL text input; the URL is kept as an opaque string. */
    method SetImageUrl(url: string)
      modifies this
      ensures imageUrl == url
      ensures options == old(options) && quality == old(quality) && selectedOptionIndex == old(selectedOptionIndex)
      ensures old(Valid()) ==> Valid()
    {
      imageUrl := url;
    }

    /** The preview style of the current state; in every valid state it has a
        filter, the descriptor of the current options. */
    function CurrentStyle(): (s: Style)
      reads this
      ensures Valid() ==> s.filter == Some(FilterString(options))
      ensures s.backgroundImage == "url(" + imageUrl + ")" && s.quality == quality
    {
      ImageStyle(options, selectedOptionIndex, imageUrl, quality)
    }
  }

  /** A session from the shown initial state through a few events, with what
      callers can conclude from the contracts alone. */
  method Session() {
    var app := new AppState();
    DefaultFilterString();
    assert app.CurrentStyle().filter
           == Some("brightness(100%)" + " " + "contrast(100%)" + " " + "saturate(100%)" + " " + "grayscale(0%)"
                   + " " + "sepia(0%)" + " " + "hue-rotate(0deg)" + " " + "blur(0px)");

    app.HandleSliderChange("50");
    BrightnessFifty();
    assert app.CurrentStyle().filter
           == Some("brightness(50%)" + " " + "contrast(100%)" + " " + "saturate(100%)" + " " + "grayscale(0%)"
                   + " " + "sepia(0%)" + " " + "hue-rotate(0deg)" + " " + "blur(0px)");

    app.HandleQualityToggle();
    assert app.quality == Low;
    app.HandleQualityToggle();
    assert app.quality == High;

    app.SelectOption(6);
    app.HandleSliderChange("3");
    assert app.options[0] == SetValueAt(DefaultOptions, 0, "50")[0];
    assert app.options[6].value == Text("3") && app.Valid();
  }
}
