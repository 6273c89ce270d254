/** The campaign form's state: the options record it edits and the preview of the
    loaded product image, with the handlers that update them. Each handler's update is
    a pure function of the previous record (the record spreads and list operations of
    the form); the class applies it in place as the state setters do. */
module BannerFormState {
  import opened Wrappers
  import opened Types
  import opened Constants
  import PromptBuilder

  // ---------------------------------------------------------------------------
  // Field edits

  /** `{ ...o, [f]: v }`: the options with the text field `f` set to `v`. */
  function WithField(o: BannerOptions, f: TextField, v: string): (r: BannerOptions)
    ensures FieldValue(r, f) == v
    ensures forall g :: g != f ==> FieldValue(r, g) == FieldValue(o, g)
    ensures r.productImage == o.productImage && r.additionalElements == o.additionalElements
  {
    match f
    case PromotionType => o.(promotionType := v)
    case Category => o.(category := v)
    case ProductName => o.(productName := v)
    case OriginalPrice => o.(originalPrice := v)
    case PromotionalPrice => o.(promotionalPrice := v)
    case Cta => o.(cta := v)
    case PrimaryColor => o.(primaryColor := v)
    case SecondaryColor => o.(secondaryColor := v)
    case Countdown => o.(countdown := v)
    case BannerSize => o.(bannerSize := v)
    case Style => o.(style := v)
  }

  /** Setting a field to the value it already holds changes nothing, and a second edit
      of the same field overrides the first. */
  lemma WithFieldLaws(o: BannerOptions, f: TextField, v: string, w: string)
    ensures WithField(o, f, FieldValue(o, f)) == o
    ensures WithField(WithField(o, f, v), f, w) == WithField(o, f, w)
  {
  }

  // ---------------------------------------------------------------------------
  // The element checkboxes

  /** `xs.filter(el => el !== v)`: every occurrence of `v` removed. */
  function RemoveAll(xs: seq<string>, v: string): (r: seq<string>)
    ensures forall x :: x in r <==> x in xs && x != v
    ensures |r| <= |xs|
  {
    if xs == [] then []
    else (if xs[0] == v then [] else [xs[0]]) + RemoveAll(xs[1..], v)
  }

  /** Removal works piecewise, so the remaining elements keep their relative order. */
  lemma {:induction false} RemoveAllAppend(a: seq<string>, b: seq<string>, v: string)
    ensures RemoveAll(a + b, v) == RemoveAll(a, v) + RemoveAll(b, v)
  {
    if a == [] {
      assert a + b == b;
    } else {
      assert (a + b)[0] == a[0] && (a + b)[1..] == a[1..] + b;
      RemoveAllAppend(a[1..], b, v);
    }
  }

  /** Removing a value that is absent leaves the list as it is. */
  lemma {:induction false} RemoveAllAbsent(xs: seq<string>, v: string)
    requires v !in xs
    ensures RemoveAll(xs, v) == xs
  {
    if xs != [] {
      RemoveAllAbsent(xs[1..], v);
      assert xs == [xs[0]] + xs[1..];
    }
  }

  /** The list after a checkbox change: `value` appended when checked, every occurrence
      of it removed when unchecked. */
  function Toggle(xs: seq<string>, value: string, checked: bool): (r: seq<string>)
    ensures checked ==> |r| == |xs| + 1 && r[..|xs|] == xs && r[|xs|] == value
    ensures !checked ==> value !in r && forall x :: x != value ==> (x in r <==> x in xs)
  {
    if checked then xs + [value] else RemoveAll(xs, value)
  }

  /** Checking an absent value and unchecking it again restores the list. */
  lemma ToggleRoundTrip(xs: seq<string>, value: string)
    requires value !in xs
    ensures Toggle(Toggle(xs, value, true), value, false) == xs
  {
    RemoveAllAppend(xs, [value], value);
    RemoveAllAbsent(xs, value);
    assert RemoveAll([value], value) == [];
  }

  /** No value occurs twice. */
  predicate NoDuplicates(xs: seq<string>) {
    forall i, j | 0 <= i < j < |xs| :: xs[i] != xs[j]
  }

  /** Removal keeps a list free of duplicates. */
  lemma {:induction false} RemoveAllNoDuplicates(xs: seq<string>, v: string)
    requires NoDuplicates(xs)
    ensures NoDuplicates(RemoveAll(xs, v))
  {
    if xs != [] {
      assert NoDuplicates(xs[1..]) by {
        forall i, j | 0 <= i < j < |xs[1..]| ensures xs[1..][i] != xs[1..][j] {
          assert xs[1..][i] == xs[i + 1] && xs[1..][j] == xs[j + 1];
        }
      }
      RemoveAllNoDuplicates(xs[1..], v);
      assert xs[0] !in xs[1..] by {
        forall k | 0 <= k < |xs[1..]| ensures xs[1..][k] != xs[0] {
          assert xs[1..][k] == xs[k + 1];
        }
      }
    }
  }

  /** A toggle keeps the list free of duplicates provided a check never adds a value the
      list already holds; appending does not test membership, so re-checking a present
      value creates a duplicate. */
  lemma ToggleNoDuplicates(xs: seq<string>, value: string, checked: bool)
    requires NoDuplicates(xs)
    ensures (!checked || value !in xs) ==> NoDuplicates(Toggle(xs, value, checked))
    ensures checked && value in xs ==> !NoDuplicates(Toggle(xs, value, checked))
  {
    if !checked {
      RemoveAllNoDuplicates(xs, value);
    } else if value in xs {
      var i :| 0 <= i < |xs| && xs[i] == value;
      var r := Toggle(xs, value, checked);
      assert r[i] == value && r[|xs|] == value;
    }
  }

  /** The checkbox reports the opposite of the box's current state, which shows whether
      the list includes its value. */
  function Click(xs: seq<string>, value: string): seq<string> {
    Toggle(xs, value, value !in xs)
  }

  /** Clicking a checkbox twice restores the list when the value was absent, and clicks
      never introduce a duplicate. */
  lemma ClickLaws(xs: seq<string>, value: string)
    requires NoDuplicates(xs)
    ensures value !in xs ==> Click(Click(xs, value), value) == xs
    ensures NoDuplicates(Click(xs, value))
  {
    ToggleNoDuplicates(xs, value, value !in xs);
    if value !in xs {
      assert value in Click(xs, value) by {
        assert Click(xs, value)[|xs|] == value;
      }
      ToggleRoundTrip(xs, value);
    }
  }

  /** Checking a value the list already holds does not change the prompt: the builder
      only looks at which values are present. */
  lemma RecheckKeepsPrompt(o: BannerOptions, value: string)
    requires value in o.additionalElements
    ensures PromptBuilder.PromptClauses(o.(additionalElements := Toggle(o.additionalElements, value, true))) ==
            PromptBuilder.PromptClauses(o)
  {
    var els := Toggle(o.additionalElements, value, true);
    assert forall x :: x in els <==> x in o.additionalElements;
    PromptBuilder.SectionIgnoresOrderAndRepeats(o, els);
  }

  // ---------------------------------------------------------------------------
  // The initial options

  /** The options the form starts with. */
  function InitialFormData(): BannerOptions {
    BannerOptions(
      promotionType := "Black Friday",
      category := "Eletrônicos",
      productName := "Fone de Ouvido Bluetooth Pro",
      originalPrice := "R$ 299,90",
      promotionalPrice := "R$ 149,90",
      productImage := None,
      cta := "50% OFF! Compre Agora!",
      primaryColor := "#8b5cf6",
      secondaryColor := "#ffffff",
      additionalElements := [FREE_SHIPPING],
      countdown := "24 horas",
      bannerSize := "16:9",
      style := "Futurista")
  }

  /** The initial options have no image, free shipping as the one element, a truthy
      countdown and the first banner size; their prompt therefore generates the product
      and holds the additional section with the free-shipping and countdown lines. */
  lemma InitialPrompt()
    ensures InitialFormData().productImage == None
    ensures InitialFormData().additionalElements == [FREE_SHIPPING]
    ensures NoDuplicates(InitialFormData().additionalElements)
    ensures InitialFormData().bannerSize == BANNER_SIZES[0].value
    ensures PromptBuilder.AdditionalSection(InitialFormData()) ==
      [PromptBuilder.AdditionalHeader, PromptBuilder.FreeShippingLine, PromptBuilder.CountdownLine("24 horas")]
  {
    var o := InitialFormData();
    assert EXTENDED_WARRANTY !in o.additionalElements && LAST_UNITS !in o.additionalElements;
  }

  // ---------------------------------------------------------------------------
  // The form component's state

  /** The form's state cells. `imagePreview` is `null` or the loaded data URI. */
  class BannerForm {
    var formData: BannerOptions
    var imagePreview: Option<string>

    /** The preview shows exactly the image the options carry. */
    predicate Valid()
      reads this
    {
      imagePreview == formData.productImage
    }

    constructor()
      ensures formData == InitialFormData() && imagePreview == None
      ensures Valid()
    {
      formData := InitialFormData();
      imagePreview := None;
    }

    /** `handleChange`: the input named `f` now holds `value`. */
    method HandleChange(f: TextField, value: string)
      requires Valid()
      modifies this
      ensures formData == WithField(old(formData), f, value)
      ensures imagePreview == old(imagePreview)
      ensures Valid()
    {
      formData := WithField(formData, f, value);
    }

    /** `handleCheckboxChange`: only the element list changes. */
    method HandleCheckboxChange(value: string, checked: bool)
      requires Valid()
      modifies this
      ensures formData == old(formData).(additionalElements := Toggle(old(formData.additionalElements), value, checked))
      ensures imagePreview == old(imagePreview)
      ensures Valid()
    {
      var currentElements := formData.additionalElements;
      if checked {
        formData := formData.(additionalElements := currentElements + [value]);
      } else {
        formData := formData.(additionalElements := RemoveAll(currentElements, value));
      }
    }

    /** A click on the checkbox for `value`, which is checked exactly when the list
        includes the value: the change reports the opposite state. */
    method ClickCheckbox(value: string)
      requires Valid()
      modifies this
      ensures formData == old(formData).(additionalElements := Click(old(formData.additionalElements), value))
      ensures NoDuplicates(old(formData.additionalElements)) ==> NoDuplicates(formData.additionalElements)
      ensures Valid()
    {
      if NoDuplicates(formData.additionalElements) {
        ClickLaws(formData.additionalElements, value);
      }
      HandleCheckboxChange(value, value !in formData.additionalElements);
    }

    /** The reader has finished: the options and the preview both hold the data URI. */
    method LoadImage(dataUrl: string)
      requires Valid()
      modifies this
      ensures formData == old(formData).(productImage := Some(dataUrl))
      ensures imagePreview == Some(dataUrl)
      ensures Valid()
    {
      formData := formData.(productImage := Some(dataUrl));
      imagePreview := Some(dataUrl);
    }

    /** `removeImage`: no image in the options and no preview. */
    method RemoveImage()
      requires Valid()
      modifies this
      ensures formData == old(formData).(productImage := None)
      ensures imagePreview == None
      ensures Valid()
    {
      formData := formData.(productImage := None);
      imagePreview := None;
    }
  }
}
