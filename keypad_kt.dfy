/** `KeyPad.kt`: the Kotlin port of the key pad, with its own traversal, attribute defaults and
    side-key rules. */
module KeyPadKt {
  import opened Wrappers
  import opened Text
  import opened Views
  import opened KeyKt

  /** The texts of a list of keys, in order. */
  function TextsOf(ks: seq<Key>): (r: seq<string>)
    reads ks`text
    ensures |r| == |ks| && forall i :: 0 <= i < |ks| ==> r[i] == ks[i].text
  {
    if ks == [] then [] else [ks[0].text] + TextsOf(ks[1..])
  }

  /** `findAllKeys`: the loop runs over `0..childCount`, both ends included, so its last
      `getChildAt` is one past the end and yields null, which is neither a Key nor a group.
      The keys found are still exactly the keys of the tree, depth first. */
  method FindAllKeys(root: View<Key>, keys: seq<Key>) returns (found: seq<Key>)
    requires root.Group?
    ensures found == keys + Flatten(root)
    decreases root
  {
    found := keys;
    var children := root.children;
    for i := 0 to |children| + 1
      invariant found == keys + FlattenAll(children[..if i <= |children| then i else |children|])
    {
      var child := ChildAt(children, i);
      if child.Some? {
        FlattenAllSnoc(children, i);
        var v := child.value;
        match v
        case KeyView(k) =>
          found := found + [k];
        case Group(_) =>
          found := FindAllKeys(v, found);
        case Other =>
      }
    }
    assert children[..|children|] == children;
  }

  /** Every key of ks has the margins m. */
  ghost predicate MarginsAre(ks: seq<Key>, m: Margins)
    reads ks`margins
  {
    forall k | k in ks :: k.margins == m
  }

  /** Every key of ks has the background (kept by the key and shown by both sub-views) and
      the text colour. */
  ghost predicate Painted(ks: seq<Key>, background: int, textColor: int)
    reads ks`background, ks`textBackground, ks`iconBackground, ks`textColor
  {
    forall k | k in ks ::
      k.background == background && k.textBackground == background && k.iconBackground == background &&
      k.textColor == textColor
  }

  /** The optional part of the per-key loop: a non-zero tint, wrapper background or icon size
      is written into every key of ks; a zero one leaves every key as it was. */
  twostate predicate OptionalStyled(ks: seq<Key>, tint: int, wrapper: int, iconSize: int)
    reads ks`iconTint, ks`wrapperBackground, ks`iconSize, ks`iconWidth, ks`iconHeight
  {
    forall k | k in ks ::
      k.iconTint == (if tint != 0 then tint else old(k.iconTint)) &&
      k.wrapperBackground == (if wrapper != 0 then wrapper else old(k.wrapperBackground)) &&
      k.iconSize == (if iconSize != 0 then iconSize else old(k.iconSize)) &&
      k.iconWidth == (if iconSize != 0 then iconSize else old(k.iconWidth)) &&
      k.iconHeight == (if iconSize != 0 then iconSize else old(k.iconHeight))
  }

  /** What the constructor leaves in a side key: a text is written and a non-zero icon is
      written after it; the key is VISIBLE when it got either and INVISIBLE otherwise. */
  twostate predicate SideKeyAfterConstruction(k: Key, text: Option<string>, icon: int)
    reads k`text, k`icon, k`visibility, k`textVisibility, k`iconVisibility
  {
    k.text == (if text.Some? then text.value else old(k.text)) &&
    k.icon == (if icon != 0 then icon else old(k.icon)) &&
    k.visibility == (if text.Some? || icon != 0 then Visible else Invisible) &&
    k.Showing() == (var s := if text.Some? then Views.HideIcon(old(k.Showing())) else old(k.Showing());
                    if icon != 0 then Views.HideText(s) else s)
  }

  /** Everything the constructor's attribute block leaves behind: the margins and styles of
      the keys ks and the side keys l and r. */
  twostate predicate Configured(ks: seq<Key>, l: Key, r: Key, attrs: PadAttributes)
    reads ks`margins, ks`background, ks`textBackground, ks`iconBackground, ks`textColor,
          ks`iconTint, ks`wrapperBackground, ks`iconSize, ks`iconWidth, ks`iconHeight
    reads l`text, l`icon, l`visibility, l`textVisibility, l`iconVisibility
    reads r`text, r`icon, r`visibility, r`textVisibility, r`iconVisibility
  {
    MarginsAre(ks, Uniform(attrs.margin.GetOr(0))) &&
    Painted(ks, attrs.keysBackground.GetOr(KeyBackground), attrs.keysTextColor.GetOr(0)) &&
    OptionalStyled(ks, attrs.keysIconTint.GetOr(0), attrs.keysWrapperBackground.GetOr(0), attrs.keysIconSize.GetOr(0)) &&
    SideKeyAfterConstruction(l, attrs.leftText, attrs.leftIcon.GetOr(0)) &&
    SideKeyAfterConstruction(r, attrs.rightText, attrs.rightIcon.GetOr(0))
  }

  /** The constructor's side-text block: a text is written and the key shown; without one the
      key is hidden. */
  method ShowSideText(k: Key, text: Option<string>)
    modifies k`text, k`visibility, k`textVisibility, k`iconVisibility
    ensures k.text == (if text.Some? then text.value else old(k.text))
    ensures k.visibility == (if text.Some? then Visible else Invisible)
    ensures k.Showing() == if text.Some? then Views.HideIcon(old(k.Showing())) else old(k.Showing())
  {
    if text.Some? {
      k.SetText(text.value);
      k.Show();
    } else {
      k.Hide();
    }
  }

  /** The constructor's side-icon block: a non-zero icon is written and the key shown. */
  method ShowSideIcon(k: Key, icon: int)
    modifies k`icon, k`visibility, k`textVisibility, k`iconVisibility
    ensures k.icon == (if icon != 0 then icon else old(k.icon))
    ensures k.visibility == (if icon != 0 then Visible else old(k.visibility))
    ensures k.Showing() == if icon != 0 then Views.HideText(old(k.Showing())) else old(k.Showing())
  {
    if icon != 0 {
      k.SetIcon(icon);
      k.Show();
    }
  }

  /** The argument of `setLeftKey(Any)` / `setRightKey(Any)`: an Int, a String or anything else. */
  datatype AnyValue = IntValue(i: Int32) | StringValue(s: string) | OtherValue

  /** `setLeftKey(Any)` and `setRightKey(Any)`, for the side key k: an Int becomes the icon, a
      String the text, and anything else is ignored; the key's visibility is never touched. */
  method SetSideKey(k: Key, value: AnyValue)
    modifies k`icon, k`text, k`textVisibility, k`iconVisibility
    ensures value.IntValue? ==> k.icon == value.i && k.text == old(k.text) &&
                                k.Showing() == Views.HideText(old(k.Showing()))
    ensures value.StringValue? ==> k.text == value.s && k.icon == old(k.icon) &&
                                   k.Showing() == Views.HideIcon(old(k.Showing()))
    ensures value.OtherValue? ==> k.text == old(k.text) && k.icon == old(k.icon) &&
                                  k.Showing() == old(k.Showing())
  {
    match value
    case IntValue(i) => k.SetIcon(i);
    case StringValue(s) => k.SetText(s);
    case OtherValue =>
  }

  class KeyPad {
    var keys: seq<Key>
    var left: Key
    var right: Key

    /** Every key's position is its index in the list. */
    ghost predicate Positioned()
      reads this, keys`position
    {
      forall i :: 0 <= i < |keys| ==> keys[i].position == i
    }

    /** The first key, in list order, whose text is t; null when there is none. */
    ghost function KeyWithText(t: string): Key?
      reads this, keys`text
    {
      match FirstIndexOf(TextsOf(keys), t)
      case None => null
      case Some(i) => keys[i]
    }

    /** The key found for a text is a key of the pad carrying that text, and no key carries
        it when none is found; every key before it has another text. */
    lemma KeyWithTextMeaning(t: string)
      ensures KeyWithText(t) != null ==> KeyWithText(t) in keys && KeyWithText(t).text == t
      ensures KeyWithText(t) == null <==> forall k | k in keys :: k.text != t
      ensures KeyWithText(t) != null ==>
        exists i :: 0 <= i < |keys| && keys[i] == KeyWithText(t) && forall j :: 0 <= j < i ==> keys[j].text != t
    {
    }

    /** Three-argument constructor: collect and number the keys; with attributes, apply the
        margins, style every key, then set up the side keys. Without attributes only the
        positions change. */
    constructor (root: View<Key>, left: Key, right: Key, attrs: Option<PadAttributes>)
      requires root.Group? && Distinct(Flatten(root)) && left != right
      requires forall k | k in Flatten(root) :: allocated(k)
      modifies Flatten(root)`position
      modifies (if attrs.Some? then Flatten(root) else [])`margins,
               (if attrs.Some? then Flatten(root) else [])`background,
               (if attrs.Some? then Flatten(root) else [])`textBackground,
               (if attrs.Some? then Flatten(root) else [])`iconBackground,
               (if attrs.Some? then Flatten(root) else [])`textColor,
               (if attrs.Some? then Flatten(root) else [])`iconTint,
               (if attrs.Some? then Flatten(root) else [])`wrapperBackground,
               (if attrs.Some? then Flatten(root) else [])`iconSize,
               (if attrs.Some? then Flatten(root) else [])`iconWidth,
               (if attrs.Some? then Flatten(root) else [])`iconHeight
      modifies (if attrs.Some? then {left, right} else {})`text,
               (if attrs.Some? then {left, right} else {})`icon,
               (if attrs.Some? then {left, right} else {})`visibility,
               (if attrs.Some? then {left, right} else {})`textVisibility,
               (if attrs.Some? then {left, right} else {})`iconVisibility
      ensures keys == Flatten(root) && this.left == left && this.right == right
      ensures Positioned()
      ensures attrs.Some? ==> Configured(keys, left, right, attrs.value)
    {
      var found := FindAllKeys(root, []);
      assert found == Flatten(root);
      keys := found;
      this.left := left;
      this.right := right;
      new;
      Initialize(attrs);
    }

    /** The constructor's steps after the keys are collected. */
    method Initialize(attrs: Option<PadAttributes>)
      requires Distinct(keys) && left != right
      modifies keys`position
      modifies (if attrs.Some? then keys else [])`margins,
               (if attrs.Some? then keys else [])`background,
               (if attrs.Some? then keys else [])`textBackground,
               (if attrs.Some? then keys else [])`iconBackground,
               (if attrs.Some? then keys else [])`textColor,
               (if attrs.Some? then keys else [])`iconTint,
               (if attrs.Some? then keys else [])`wrapperBackground,
               (if attrs.Some? then keys else [])`iconSize,
               (if attrs.Some? then keys else [])`iconWidth,
               (if attrs.Some? then keys else [])`iconHeight
      modifies (if attrs.Some? then {left, right} else {})`text,
               (if attrs.Some? then {left, right} else {})`icon,
               (if attrs.Some? then {left, right} else {})`visibility,
               (if attrs.Some? then {left, right} else {})`textVisibility,
               (if attrs.Some? then {left, right} else {})`iconVisibility
      ensures Positioned()
      ensures attrs.Some? ==> Configured(keys, left, right, attrs.value)
    {
      NumberKeys();
      if attrs.Some? {
        Configure(attrs.value);
      }
    }

    /** The numbering loop: each key is told its index in the list. */
    method NumberKeys()
      requires Distinct(keys)
      modifies keys`position
      ensures Positioned()
    {
      DistinctElements(keys);
      for i := 0 to |keys|
        invariant forall j :: 0 <= j < i ==> keys[j].position == j
      {
        keys[i].SetPosition(i);
      }
    }

    /** The constructor's attribute block, in the source's order: margins, the per-key loop,
        the side keys. */
    method Configure(attrs: PadAttributes)
      requires left != right
      modifies keys`margins, keys`background, keys`textBackground, keys`iconBackground, keys`textColor,
               keys`iconTint, keys`wrapperBackground, keys`iconSize, keys`iconWidth, keys`iconHeight
      modifies left`text, left`icon, left`visibility, left`textVisibility, left`iconVisibility
      modifies right`text, right`icon, right`visibility, right`textVisibility, right`iconVisibility
      ensures Configured(keys, left, right, attrs)
    {
      StyleAllKeys(attrs);
      SetUpSideKeys(attrs);
    }

    /** The margins, then the per-key loop over the attributes' values. */
    method StyleAllKeys(attrs: PadAttributes)
      modifies keys`margins, keys`background, keys`textBackground, keys`iconBackground, keys`textColor,
               keys`iconTint, keys`wrapperBackground, keys`iconSize, keys`iconWidth, keys`iconHeight
      ensures MarginsAre(keys, Uniform(attrs.margin.GetOr(0)))
      ensures Painted(keys, attrs.keysBackground.GetOr(KeyBackground), attrs.keysTextColor.GetOr(0))
      ensures OptionalStyled(keys, attrs.keysIconTint.GetOr(0), attrs.keysWrapperBackground.GetOr(0),
                             attrs.keysIconSize.GetOr(0))
    {
      SetMargins(attrs.marginLeft.GetOr(0), attrs.marginTop.GetOr(0), attrs.marginRight.GetOr(0), attrs.marginBottom.GetOr(0));
      SetMargin(attrs.margin.GetOr(0));
      StyleKeys(attrs.keysBackground.GetOr(KeyBackground), attrs.keysTextColor.GetOr(0),
                attrs.keysIconTint.GetOr(0), attrs.keysWrapperBackground.GetOr(0), attrs.keysIconSize.GetOr(0));
    }

    /** The constructor's per-key loop: background and text colour always, tint, wrapper
        background and icon size only when non-zero. */
    method StyleKeys(background: int, textColor: int, tint: int, wrapper: int, iconSize: int)
      modifies keys`background, keys`textBackground, keys`iconBackground, keys`textColor,
               keys`iconTint, keys`wrapperBackground, keys`iconSize, keys`iconWidth, keys`iconHeight
      ensures Painted(keys, background, textColor)
      ensures OptionalStyled(keys, tint, wrapper, iconSize)
    {
      for i := 0 to |keys|
        invariant forall j :: 0 <= j < i ==>
          keys[j].background == background && keys[j].textBackground == background &&
          keys[j].iconBackground == background && keys[j].textColor == textColor
        invariant tint != 0 ==> forall j :: 0 <= j < i ==> keys[j].iconTint == tint
        invariant tint == 0 ==> forall k | k in keys :: k.iconTint == old(k.iconTint)
        invariant wrapper != 0 ==> forall j :: 0 <= j < i ==> keys[j].wrapperBackground == wrapper
        invariant wrapper == 0 ==> forall k | k in keys :: k.wrapperBackground == old(k.wrapperBackground)
        invariant iconSize != 0 ==> forall j :: 0 <= j < i ==>
          keys[j].iconSize == iconSize && keys[j].iconWidth == iconSize && keys[j].iconHeight == iconSize
        invariant iconSize == 0 ==> forall k | k in keys ::
          k.iconSize == old(k.iconSize) && k.iconWidth == old(k.iconWidth) && k.iconHeight == old(k.iconHeight)
      {
        StyleKey(keys[i], background, textColor, tint, wrapper, iconSize);
      }
    }

    /** The body of the per-key loop, for one key. */
    static method StyleKey(k: Key, background: int, textColor: int, tint: int, wrapper: int, iconSize: int)
      modifies k`background, k`textBackground, k`iconBackground, k`textColor,
               k`iconTint, k`wrapperBackground, k`iconSize, k`iconWidth, k`iconHeight
      ensures k.background == background && k.textBackground == background && k.iconBackground == background
      ensures k.textColor == textColor
      ensures k.iconTint == (if tint != 0 then tint else old(k.iconTint))
      ensures k.wrapperBackground == (if wrapper != 0 then wrapper else old(k.wrapperBackground))
      ensures k.iconSize == (if iconSize != 0 then iconSize else old(k.iconSize))
      ensures k.iconWidth == (if iconSize != 0 then iconSize else old(k.iconWidth))
      ensures k.iconHeight == (if iconSize != 0 then iconSize else old(k.iconHeight))
    {
      k.SetBackground(background);
      k.SetTextColor(textColor);
      if tint != 0 {
        k.SetIconTint(tint);
      }
      if wrapper != 0 {
        k.SetWrapperBackground(wrapper);
      }
      if iconSize != 0 {
        k.SetIconSize(iconSize);
      }
    }

    /** The constructor's side-key blocks: both texts (or hides), then both icons. */
    method SetUpSideKeys(attrs: PadAttributes)
      requires left != right
      modifies left`text, left`icon, left`visibility, left`textVisibility, left`iconVisibility
      modifies right`text, right`icon, right`visibility, right`textVisibility, right`iconVisibility
      ensures SideKeyAfterConstruction(left, attrs.leftText, attrs.leftIcon.GetOr(0))
      ensures SideKeyAfterConstruction(right, attrs.rightText, attrs.rightIcon.GetOr(0))
    {
      ShowSideText(left, attrs.leftText);
      ShowSideText(right, attrs.rightText);
      ShowSideIcon(left, attrs.leftIcon.GetOr(0));
      ShowSideIcon(right, attrs.rightIcon.GetOr(0));
    }

    /** `setMargins(left, top, right, bottom)`: every key gets exactly these margins. */
    method SetMargins(l: int, t: int, r: int, b: int)
      modifies keys`margins
      ensures MarginsAre(keys, Margins(l, t, r, b))
    {
      for i := 0 to |keys|
        invariant forall j :: 0 <= j < i ==> keys[j].margins == Margins(l, t, r, b)
      {
        keys[i].margins := Margins(l, t, r, b);
      }
    }

    /** `setMargins(margins)`: the same margin on all four sides of every key. */
    method SetMargin(margin: int)
      modifies keys`margins
      ensures MarginsAre(keys, Uniform(margin))
    {
      SetMargins(margin, margin, margin, margin);
    }

    /** `setKeysBackground`. */
    method SetKeysBackground(background: int)
      modifies keys`background, keys`textBackground, keys`iconBackground
      ensures forall k | k in keys ::
        k.background == background && k.textBackground == background && k.iconBackground == background
    {
      for i := 0 to |keys|
        invariant forall j :: 0 <= j < i ==>
          keys[j].background == background && keys[j].textBackground == background &&
          keys[j].iconBackground == background
      {
        keys[i].SetBackground(background);
      }
    }

    /** `setKeysTextColor`. */
    method SetKeysTextColor(color: int)
      modifies keys`textColor
      ensures forall k | k in keys :: k.textColor == color
    {
      for i := 0 to |keys|
        invariant forall j :: 0 <= j < i ==> keys[j].textColor == color
      {
        keys[i].SetTextColor(color);
      }
    }

    /** `setKeysWrapperBackground`. */
    method SetKeysWrapperBackground(background: int)
      modifies keys`wrapperBackground
      ensures forall k | k in keys :: k.wrapperBackground == background
    {
      for i := 0 to |keys|
        invariant forall j :: 0 <= j < i ==> keys[j].wrapperBackground == background
      {
        keys[i].SetWrapperBackground(background);
      }
    }

    /** `setIconsTint`. */
    method SetIconsTint(color: int)
      modifies keys`iconTint
      ensures forall k | k in keys :: k.iconTint == color
    {
      for i := 0 to |keys|
        invariant forall j :: 0 <= j < i ==> keys[j].iconTint == color
      {
        keys[i].SetIconTint(color);
      }
    }

    /** `setIconsSize`: the size is kept by every key and given to its icon's width and height. */
    method SetIconsSize(size: int)
      modifies keys`iconSize, keys`iconWidth, keys`iconHeight
      ensures forall k | k in keys :: k.iconSize == size && k.iconWidth == size && k.iconHeight == size
    {
      for i := 0 to |keys|
        invariant forall j :: 0 <= j < i ==>
          keys[j].iconSize == size && keys[j].iconWidth == size && keys[j].iconHeight == size
      {
        keys[i].SetIconSize(size);
      }
    }

    /** `findKey(String)`: the first key whose text equals the argument, or null. */
    method FindKey(text: string) returns (r: Key?)
      ensures r == KeyWithText(text)
    {
      for i := 0 to |keys|
        invariant forall j :: 0 <= j < i ==> TextsOf(keys)[j] != text
      {
        if keys[i].text == text {
          FirstMatchAt(TextsOf(keys), text, i);
          return keys[i];
        }
      }
      return null;
    }

    /** `findKey(Int)`: the key whose text is the decimal form of the value. */
    method FindKeyByValue(value: Int32) returns (r: Key?)
      ensures r == KeyWithText(Decimal(value))
    {
      r := FindKey(Decimal(value));
    }

    /** A key found by value carries a text that reads back as that value, so distinct values
        never find the same key. */
    lemma FoundByValue(a: Int32, b: Int32)
      ensures KeyWithText(Decimal(a)) != null ==> ParseDecimal(KeyWithText(Decimal(a)).text) == a
      ensures KeyWithText(Decimal(a)) != null && a != b ==> KeyWithText(Decimal(a)) != KeyWithText(Decimal(b))
    {
      KeyWithTextMeaning(Decimal(a));
      KeyWithTextMeaning(Decimal(b));
      ParseDecimalDecimal(a);
      ParseDecimalDecimal(b);
    }

    /** `keyAt`: the key at a position, null past the end. A negative position makes the list
        throw, so it is excluded. */
    function KeyAt(position: int): (r: Key?)
      requires 0 <= position
      reads this, keys`position
      ensures position >= |keys| ==> r == null
      ensures position < |keys| ==> r == keys[position]
      ensures Positioned() && r != null ==> r.position == position
    {
      if position < |keys| then keys[position] else null
    }

    /** `setLeftKey(Any)`. */
    method SetLeftKey(value: AnyValue)
      modifies left`icon, left`text, left`textVisibility, left`iconVisibility
      ensures value.IntValue? ==> left.icon == value.i && left.text == old(left.text) &&
                                  left.Showing() == Views.HideText(old(left.Showing()))
      ensures value.StringValue? ==> left.text == value.s && left.icon == old(left.icon) &&
                                     left.Showing() == Views.HideIcon(old(left.Showing()))
      ensures value.OtherValue? ==> left.text == old(left.text) && left.icon == old(left.icon) &&
                                    left.Showing() == old(left.Showing())
    {
      SetSideKey(left, value);
    }

    /** `setRightKey(Any)`. */
    method SetRightKey(value: AnyValue)
      modifies right`icon, right`text, right`textVisibility, right`iconVisibility
      ensures value.IntValue? ==> right.icon == value.i && right.text == old(right.text) &&
                                  right.Showing() == Views.HideText(old(right.Showing()))
      ensures value.StringValue? ==> right.text == value.s && right.icon == old(right.icon) &&
                                     right.Showing() == Views.HideIcon(old(right.Showing()))
      ensures value.OtherValue? ==> right.text == old(right.text) && right.icon == old(right.icon) &&
                                    right.Showing() == old(right.Showing())
    {
      SetSideKey(right, value);
    }
  }
}
