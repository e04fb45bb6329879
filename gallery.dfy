/**
 * The Gallery widget of gallery.js: settings resolution, the two style
 * strings it writes on the `.gallery` element, and the object whose click
 * handlers move the current slide.
 */
module GalleryWidget {
  import opened Wrappers
  import opened Decimal
  import opened JsValues
  import opened Navigation

  /** The options object passed to the constructor; a key that is absent is Undefined. */
  datatype Options = Options(ease: JsValue, duration: JsValue)

  /** `this.settings` once resolved. */
  datatype Settings = Settings(ease: JsValue, duration: JsValue)

  const DefaultEase: JsValue := Str("ease")
  const DefaultDuration: JsValue := Num(400)

  /**
   * The settings half of _establishObjectProperties: each option falls back
   * to its default when it is falsy, so a duration of 0 becomes 400.
   */
  function EstablishSettings(obj: Options): (s: Settings)
    ensures Truthy(s.ease) && Truthy(s.duration)
    ensures Truthy(obj.ease) ==> s.ease == obj.ease
    ensures !Truthy(obj.ease) ==> s.ease == DefaultEase
    ensures Truthy(obj.duration) ==> s.duration == obj.duration
    ensures !Truthy(obj.duration) ==> s.duration == DefaultDuration
  {
    Settings(Or(obj.ease, DefaultEase), Or(obj.duration, DefaultDuration))
  }

  /** The `transition` style _addTransitions writes. */
  function TransitionStyle(s: Settings): string {
    "transform " + ToString(s.duration) + "ms " + ToString(s.ease)
  }

  /** The `transform` style the handlers write for slide `index`. */
  function TranslateStyle(index: int): string {
    "translateX(" + IntToString(-(index * 100)) + "%)"
  }

  predicate NumericChar(c: char) {
    IsDigit(c) || c == '-'
  }

  /** Length of the longest prefix of `s` made of digits and minus signs. */
  function NumericPrefixLength(s: string): (k: nat)
    ensures k <= |s|
  {
    if s != [] && NumericChar(s[0]) then 1 + NumericPrefixLength(s[1..]) else 0
  }

  /** Reads a transition style back into its integral duration and its easing text. */
  function ParseTransition(t: string): Option<(int, string)> {
    if |t| >= 10 && t[..10] == "transform " then
      var rest := t[10..];
      var k := NumericPrefixLength(rest);
      if |rest| >= k + 3 && rest[k..k + 3] == "ms " then
        match ParseInt(rest[..k])
        case Some(n) => Some((n, rest[k + 3..]))
        case None => None
      else None
    else None
  }

  /** Reads a transform style back into its offset in percent. */
  function ParseTranslate(t: string): Option<int> {
    if |t| >= 13 && t[..11] == "translateX(" && t[|t| - 2..] == "%)" then ParseInt(t[11..|t| - 2])
    else None
  }

  /** A resolved setting is truthy, so resolving the settings again changes nothing. */
  lemma EstablishSettingsIdempotent(obj: Options)
    ensures var s := EstablishSettings(obj); EstablishSettings(Options(s.ease, s.duration)) == s
  {
  }

  /** An explicit duration of 0 is falsy and is replaced by the default. */
  lemma ZeroDurationBecomesDefault(ease: JsValue)
    ensures EstablishSettings(Options(ease, Num(0))).duration == Num(400)
  {
  }

  /** An options object without ease or duration gives "transform 400ms ease". */
  lemma DefaultTransition()
    ensures TransitionStyle(EstablishSettings(Options(Undefined, Undefined))) == "transform 400ms ease"
  {
    assert NatToString(4) == "4";
    assert NatToString(40) == "40";
    assert NatToString(400) == "400";
  }

  lemma IntToStringIsNumeric(n: int)
    ensures forall i :: 0 <= i < |IntToString(n)| ==> NumericChar(IntToString(n)[i])
  {
  }

  lemma {:induction false} NumericPrefixOfConcat(a: string, b: string)
    requires forall i :: 0 <= i < |a| ==> NumericChar(a[i])
    requires b != [] && !NumericChar(b[0])
    ensures NumericPrefixLength(a + b) == |a|
    decreases |a|
  {
    if a == [] {
      assert a + b == b;
    } else {
      assert (a + b)[1..] == a[1..] + b;
      NumericPrefixOfConcat(a[1..], b);
    }
  }

  /** The transition style keeps an integral duration and the easing text recoverable. */
  lemma TransitionRoundTrip(s: Settings)
    requires s.duration.Num?
    ensures ParseTransition(TransitionStyle(s)) == Some((s.duration.n, ToString(s.ease)))
  {
    var d := IntToString(s.duration.n);
    var e := ToString(s.ease);
    var t := TransitionStyle(s);
    assert t == "transform " + (d + ("ms " + e));
    var rest := t[10..];
    assert rest == d + ("ms " + e);
    IntToStringIsNumeric(s.duration.n);
    NumericPrefixOfConcat(d, "ms " + e);
    assert rest[..|d|] == d;
    assert rest[|d|..|d| + 3] == "ms ";
    assert rest[|d| + 3..] == e;
    IntToStringRoundTrip(s.duration.n);
  }

  /** The transform style written for slide `index` reads back as an offset of -(index*100) percent. */
  lemma TranslateRoundTrip(index: int)
    ensures ParseTranslate(TranslateStyle(index)) == Some(-(index * 100))
  {
    var d := IntToString(-(index * 100));
    var t := TranslateStyle(index);
    assert t == "translateX(" + d + "%)";
    assert t[..11] == "translateX(";
    assert t[|t| - 2..] == "%)";
    assert t[11..|t| - 2] == d;
    IntToStringRoundTrip(-(index * 100));
  }

  /** Different slides are rendered with different transforms. */
  lemma TranslateStyleInjective(i: int, j: int)
    ensures TranslateStyle(i) == TranslateStyle(j) ==> i == j
  {
    TranslateRoundTrip(i);
    TranslateRoundTrip(j);
  }

  /** Slide 0 renders as "translateX(0%)": the negated zero offset prints without a sign. */
  lemma FirstSlideStyle()
    ensures TranslateStyle(0) == "translateX(0%)"
    ensures TranslateStyle(1) == "translateX(-100%)"
  {
    assert NatToString(0) == "0";
    assert NatToString(1) == "1";
    assert NatToString(10) == "10";
    assert NatToString(100) == "100";
  }

  class Gallery {
    const settings: Settings
    const totalSlides: nat
    var currentSlide: int
    /** `elem.gallery.style.transition` */
    var transition: string
    /** `elem.gallery.style.transform`; "" until a handler first moves */
    var transform: string

    ghost predicate Valid()
      reads this
    {
      && InRange(currentSlide, totalSlides)
      && Truthy(settings.ease) && Truthy(settings.duration)
      && transition == TransitionStyle(settings)
      && (transform == TranslateStyle(currentSlide) || (transform == "" && currentSlide == 0))
    }

    /** Builds the gallery over `slideCount` slides: settings resolved, slide 0 current, transition set. */
    constructor (obj: Options, slideCount: nat)
      ensures Valid()
      ensures settings == EstablishSettings(obj)
      ensures currentSlide == 0 && totalSlides == slideCount
      ensures transition == TransitionStyle(settings) && transform == ""
    {
      settings := EstablishSettings(obj);
      totalSlides := slideCount;
      currentSlide := 0;
      transition := "";
      transform := "";
      new;
      AddTransitions();
    }

    /** _addTransitions: writes the transition style from the settings. */
    method AddTransitions()
      modifies this`transition
      ensures transition == TransitionStyle(settings)
    {
      transition := "transform " + ToString(settings.duration) + "ms " + ToString(settings.ease);
    }

    /** moveLeft: `moved` is false where the source returns false, true where it returns undefined. */
    method MoveLeft() returns (moved: bool)
      requires Valid()
      modifies this`currentSlide, this`transform
      ensures Valid()
      ensures moved <==> Left(old(currentSlide)).MovedTo?
      ensures currentSlide == IndexAfter(old(currentSlide), Left(old(currentSlide)))
      ensures transform == if moved then TranslateStyle(currentSlide) else old(transform)
    {
      if currentSlide == 0 {
        return false;
      }
      currentSlide := currentSlide - 1;
      transform := "translateX(" + IntToString(-(currentSlide * 100)) + "%)";
      moved := true;
    }

    /** moveRight: refuses from totalSlides - 1 on, including an empty gallery. */
    method MoveRight() returns (moved: bool)
      requires Valid()
      modifies this`currentSlide, this`transform
      ensures Valid()
      ensures moved <==> Right(old(currentSlide), totalSlides).MovedTo?
      ensures currentSlide == IndexAfter(old(currentSlide), Right(old(currentSlide), totalSlides))
      ensures transform == if moved then TranslateStyle(currentSlide) else old(transform)
    {
      if currentSlide >= totalSlides - 1 {
        return false;
      }
      currentSlide := currentSlide + 1;
      transform := "translateX(" + IntToString(-(currentSlide * 100)) + "%)";
      moved := true;
    }

    /** The click listeners _addListeners attaches: left control to MoveLeft, right control to MoveRight. */
    method HandleClick(c: Click) returns (moved: bool)
      requires Valid()
      modifies this`currentSlide, this`transform
      ensures Valid()
      ensures moved <==> Step(old(currentSlide), totalSlides, c).MovedTo?
      ensures currentSlide == IndexAfter(old(currentSlide), Step(old(currentSlide), totalSlides, c))
      ensures transform == if moved then TranslateStyle(currentSlide) else old(transform)
    {
      match c
      case LeftClick => moved := MoveLeft();
      case RightClick => moved := MoveRight();
    }

    /** Once a handler has written a transform, it shows the current slide's offset. */
    lemma RenderedOffsetMatchesIndex()
      requires Valid()
      ensures transform != "" ==> ParseTranslate(transform) == Some(-(currentSlide * 100))
      ensures transform == "" ==> currentSlide == 0
    {
      if transform != "" {
        TranslateRoundTrip(currentSlide);
      } else {
        assert TranslateStyle(currentSlide) != "";
      }
    }
  }
}
