/** `KeyPad.java`: a layout holding an ordered list of keys plus a left and a right side key. */
module KeyPadJava {
  import opened Wrappers
  import opened Text
  import opened Views
  import opened KeyJava

  /** The texts of a list of keys, in order. */
  function TextsOf(ks: seq<Key>): (r: seq<string>)
    reads ks`text
    ensures |r| == |ks| && forall i :: 0 <= i < |ks| ==> r[i] == ks[i].text
  {
    if ks == [] then [] else [ks[0].text] + TextsOf(ks[1..])
  }

  /** `findAllKeys`: appends to `keys` every Key among the descendants of the view group `root`,
      depth first, without looking inside a Key. */
  method FindAllKeys(root: View<Key>, keys: seq<Key>) returns (found: seq<Key>)
    requires root.Group?
    ensures found == keys + Flatten(root)
    decreases root
  {
    found := keys;
    var children := root.children;
    for i := 0 to |children|
      invariant found == keys + FlattenAll(children[..i])
    {
      FlattenAllSnoc(children, i);
      var v := children[i];
      match v
      case KeyView(k) =>
        found := found + [k];
      case Group(_) =>
        found := FindAllKeys(v, found);
      case Other =>
    }
    assert children[..|children|] == children;
  }

  /** Every key of ks has the margins m. */
  ghost predicate MarginsAre(ks: seq<Key>, m: Margins)
    reads ks`margins
  {
    forall k | k in ks :: k.margins == m
  }

  /** Every key of ks has the background on both sub-views and the text colour. */
  ghost predicate Painted(ks: seq<Key>, background: int, textColor: int)
    reads ks`textBackground, ks`iconBackground, ks`textColor
  {
    forall k | k in ks :: k.textBackground == background && k.iconBackground == background && k.textColor == textColor
  }

  /** What the constructor leaves in a side key: a given text is written (hiding the icon) and
      shows the key, a non-zero icon is written (hiding the text) and shows the key; with
      neither, the key keeps the text and visibility it had. */
  twostate predicate SideKeyAfterConstruction(k: Key, text: Option<string>, icon: int)
    reads k`text, k`iconImage, k`visibility, k`textVisibility, k`iconVisibility
  {
    k.text == (if text.Some? then text.value else old(k.text)) &&
    k.iconImage == (if icon != 0 then icon else old(k.iconImage)) &&
    k.visibility == (if text.Some? || icon != 0 then Visible else old(k.visibility)) &&
    k.Showing() == (var s := if text.Some? then Views.HideIcon(old(k.Showing())) else old(k.Showing());
                    if icon != 0 then Views.HideText(s) else s)
  }

  /** The constructor's side-text block: a text attribute is written into the side key,
      which is then made VISIBLE; without one the key is left as it is. */
  method ShowSideText(k: Key, text: Option<string>)
    modifies k`text, k`visibility, k`textVisibility, k`iconVisibility
    ensures k.text == (if text.Some? then text.value else old(k.text))
    ensures k.visibility == (if text.Some? then Visible else old(k.visibility))
    ensures k.Showing() == if text.Some? then Views.HideIcon(old(k.Showing())) else old(k.Showing())
  {
    if text.Some? {
      k.SetText(text);
      k.SetVisibility(Visible);
    }
  }

  /** The constructor's side-icon block: a non-zero icon attribute is passed to
      `setLeftKey(int)` / `setRightKey(int)`, which show the key and write the icon. */
  method ShowSideIcon(k: Key, icon: int)
    modifies k`iconImage, k`visibility, k`textVisibility, k`iconVisibility
    ensures k.iconImage == (if icon != 0 then icon else old(k.iconImage))
    ensures k.visibility == (if icon != 0 then Visible else old(k.visibility))
    ensures k.Showing() == if icon != 0 then Views.HideText(old(k.Showing())) else old(k.Showing())
  {
    if icon != 0 {
      SetSideKeyIcon(k, icon);
    }
  }

  /** `setLeftKey(int)` and `setRightKey(int)`, for the side key k: show it, then write the icon. */
  method SetSideKeyIcon(k: Key, iconRes: int)
    modifies k`visibility, k`iconImage, k`textVisibility, k`iconVisibility
    ensures k.visibility == Visible && k.iconImage == iconRes
    ensures k.Showing() == Views.HideText(old(k.Showing()))
  {
    k.SetVisibility(Visible);
    k.SetIcon(iconRes);
  }

  class KeyPad {
    var keys: seq<Key>
    var left: Key
    var right: Key

    /** Every key's position is its index in the list. */
    ghost predicate Positioned()
      reads this, keys`position
    {
      forall i :: 0 <= i < |keys| ==> keys[i].position == i
    }

    /** The first key, in list order, whose text is t; null when there is none. */
    ghost function KeyWithText(t: string): Key?
      reads this, keys`text
    {
      match FirstIndexOf(TextsOf(keys), t)
      case None => null
      case Some(i) => keys[i]
    }

    /** The key found for a text is a key of the pad carrying that text, and no key carries
        it when none is found; every key before it has another text. */
    lemma KeyWithTextMeaning(t: string)
      ensures KeyWithText(t) != null ==> KeyWithText(t) in keys && KeyWithText(t).text == t
      ensures KeyWithText(t) == null <==> forall k | k in keys :: k.text != t
      ensures KeyWithText(t) != null ==>
        exists i :: 0 <= i < |keys| && keys[i] == KeyWithText(t) && forall j :: 0 <= j < i ==> keys[j].text != t
    {
    }

    /** A key found by value carries the text `String.valueOf` gives for that value, so two
        different values never find the same key. */
    lemma FoundByValue(a: Option<Int32>, b: Option<Int32>)
      ensures KeyWithText(ValueOf(a)) != null ==> KeyWithText(ValueOf(a)).text == ValueOf(a)
      ensures KeyWithText(ValueOf(a)) != null && a != b ==> KeyWithText(ValueOf(a)) != KeyWithText(ValueOf(b))
    {
      KeyWithTextMeaning(ValueOf(a));
      KeyWithTextMeaning(ValueOf(b));
      ValueOfInjective(a, b);
    }

    /** The constructor taking XML attributes: collect and number the keys, set up the side
        keys, apply the margins, the side icons and the attributes common to all keys. */
    constructor (root: View<Key>, left: Key, right: Key, attrs: PadAttributes)
      requires root.Group? && Distinct(Flatten(root)) && left != right
      requires forall k | k in Flatten(root) :: allocated(k)
      modifies Flatten(root)`position, Flatten(root)`margins, Flatten(root)`iconTint,
               Flatten(root)`textBackground, Flatten(root)`iconBackground, Flatten(root)`textColor,
               Flatten(root)`wrapperBackground
      modifies left`text, left`iconImage, left`visibility, left`textVisibility, left`iconVisibility
      modifies right`text, right`iconImage, right`visibility, right`textVisibility, right`iconVisibility
      ensures keys == Flatten(root) && this.left == left && this.right == right
      ensures Positioned()
      ensures MarginsAre(keys, Uniform(attrs.margin.GetOr(0)))
      ensures Painted(keys, attrs.keysBackground.GetOr(KeyBackground), attrs.keysTextColor.GetOr(DarkerGray))
      ensures forall k | k in keys ::
        k.iconTint == (if attrs.keysIconTint.GetOr(0) != 0 then attrs.keysIconTint.value else old(k.iconTint))
      ensures forall k | k in keys ::
        k.wrapperBackground == (if attrs.keysWrapperBackground.GetOr(0) != 0 then attrs.keysWrapperBackground.value
                                else old(k.wrapperBackground))
      ensures SideKeyAfterConstruction(left, attrs.leftText, attrs.leftIcon.GetOr(0))
      ensures SideKeyAfterConstruction(right, attrs.rightText, attrs.rightIcon.GetOr(0))
    {
      var found := FindAllKeys(root, []);
      assert found == Flatten(root);
      keys := found;
      this.left := left;
      this.right := right;
      new;
      Initialize(attrs);
    }

    /** The constructor's steps after the keys are collected, in the source's order: number
        the keys, the side texts, the margins, the side icons, the attributes of all keys. */
    method Initialize(attrs: PadAttributes)
      requires Distinct(keys) && left != right
      modifies keys`position, keys`margins, keys`iconTint, keys`textBackground, keys`iconBackground,
               keys`textColor, keys`wrapperBackground
      modifies left`text, left`iconImage, left`visibility, left`textVisibility, left`iconVisibility
      modifies right`text, right`iconImage, right`visibility, right`textVisibility, right`iconVisibility
      ensures Positioned()
      ensures MarginsAre(keys, Uniform(attrs.margin.GetOr(0)))
      ensures Painted(keys, attrs.keysBackground.GetOr(KeyBackground), attrs.keysTextColor.GetOr(DarkerGray))
      ensures forall k | k in keys ::
        k.iconTint == (if attrs.keysIconTint.GetOr(0) != 0 then attrs.keysIconTint.value else old(k.iconTint))
      ensures forall k | k in keys ::
        k.wrapperBackground == (if attrs.keysWrapperBackground.GetOr(0) != 0 then attrs.keysWrapperBackground.value
                                else old(k.wrapperBackground))
      ensures SideKeyAfterConstruction(left, attrs.leftText, attrs.leftIcon.GetOr(0))
      ensures SideKeyAfterConstruction(right, attrs.rightText, attrs.rightIcon.GetOr(0))
    {
      NumberKeys();
      ConfigureKeys(attrs);
    }

    /** The constructor's steps after the numbering. */
    method ConfigureKeys(attrs: PadAttributes)
      requires left != right
      modifies keys`margins, keys`iconTint, keys`textBackground, keys`iconBackground,
               keys`textColor, keys`wrapperBackground
      modifies left`text, left`iconImage, left`visibility, left`textVisibility, left`iconVisibility
      modifies right`text, right`iconImage, right`visibility, right`textVisibility, right`iconVisibility
      ensures MarginsAre(keys, Uniform(attrs.margin.GetOr(0)))
      ensures Painted(keys, attrs.keysBackground.GetOr(KeyBackground), attrs.keysTextColor.GetOr(DarkerGray))
      ensures forall k | k in keys ::
        k.iconTint == (if attrs.keysIconTint.GetOr(0) != 0 then attrs.keysIconTint.value else old(k.iconTint))
      ensures forall k | k in keys ::
        k.wrapperBackground == (if attrs.keysWrapperBackground.GetOr(0) != 0 then attrs.keysWrapperBackground.value
                                else old(k.wrapperBackground))
      ensures SideKeyAfterConstruction(left, attrs.leftText, attrs.leftIcon.GetOr(0))
      ensures SideKeyAfterConstruction(right, attrs.rightText, attrs.rightIcon.GetOr(0))
    {
      SetUpSideKeysAndMargins(attrs);
      SetAllKeysParams(attrs);
    }

    /** The constructor's middle steps: the side texts, the margins of all keys, the side icons. */
    method SetUpSideKeysAndMargins(attrs: PadAttributes)
      requires left != right
      modifies keys`margins
      modifies left`text, left`iconImage, left`visibility, left`textVisibility, left`iconVisibility
      modifies right`text, right`iconImage, right`visibility, right`textVisibility, right`iconVisibility
      ensures MarginsAre(keys, Uniform(attrs.margin.GetOr(0)))
      ensures SideKeyAfterConstruction(left, attrs.leftText, attrs.leftIcon.GetOr(0))
      ensures SideKeyAfterConstruction(right, attrs.rightText, attrs.rightIcon.GetOr(0))
    {
      ShowSideText(left, attrs.leftText);
      ShowSideText(right, attrs.rightText);
      ApplyMargins(attrs);
      ShowSideIcon(left, attrs.leftIcon.GetOr(0));
      ShowSideIcon(right, attrs.rightIcon.GetOr(0));
    }

    /** The constructor's numbering loop: each key is told its index in the list. */
    method NumberKeys()
      requires Distinct(keys)
      modifies keys`position
      ensures Positioned()
    {
      DistinctElements(keys);
      for i := 0 to |keys|
        invariant forall j :: 0 <= j < i ==> keys[j].position == j
      {
        keys[i].SetPosition(i);
      }
    }

    /** The constructor's two margin calls: the per-side margins first, then the uniform margin
        (0 when absent), which overwrites them. */
    method ApplyMargins(attrs: PadAttributes)
      modifies keys`margins
      ensures MarginsAre(keys, Uniform(attrs.margin.GetOr(0)))
    {
      SetKeysMargins(attrs.marginLeft.GetOr(0), attrs.marginTop.GetOr(0), attrs.marginRight.GetOr(0), attrs.marginBottom.GetOr(0));
      SetKeysMargin(attrs.margin.GetOr(0));
    }

    /** `setLeftKey(int)`: shows the left key and gives it the icon. */
    method SetLeftKeyIcon(iconRes: int)
      modifies left`visibility, left`iconImage, left`textVisibility, left`iconVisibility
      ensures left.visibility == Visible && left.iconImage == iconRes
      ensures left.Showing() == Views.HideText(old(left.Showing()))
    {
      SetSideKeyIcon(left, iconRes);
    }

    /** `setRightKey(int)`: shows the right key and gives it the icon. */
    method SetRightKeyIcon(iconRes: int)
      modifies right`visibility, right`iconImage, right`textVisibility, right`iconVisibility
      ensures right.visibility == Visible && right.iconImage == iconRes
      ensures right.Showing() == Views.HideText(old(right.Showing()))
    {
      SetSideKeyIcon(right, iconRes);
    }

    /** `setLeftKey(String)`: a text shows the left key with that text; null makes it INVISIBLE
        and leaves its text alone. */
    method SetLeftKeyText(text: Option<string>)
      modifies left`visibility, left`text, left`textVisibility, left`iconVisibility
      ensures text.Some? ==> left.visibility == Visible && left.GetText() == text.value &&
                             left.Showing() == Views.HideIcon(old(left.Showing()))
      ensures text.None? ==> left.visibility == Invisible && left.GetText() == old(left.GetText()) &&
                             left.Showing() == old(left.Showing())
    {
      if text.Some? {
        left.SetVisibility(Visible);
        left.SetText(text);
      } else {
        left.SetVisibility(Invisible);
      }
    }

    /** `setRightKey(String)`: as SetLeftKeyText, for the right key. */
    method SetRightKeyText(text: Option<string>)
      modifies right`visibility, right`text, right`textVisibility, right`iconVisibility
      ensures text.Some? ==> right.visibility == Visible && right.GetText() == text.value &&
                             right.Showing() == Views.HideIcon(old(right.Showing()))
      ensures text.None? ==> right.visibility == Invisible && right.GetText() == old(right.GetText()) &&
                             right.Showing() == old(right.Showing())
    {
      if text.Some? {
        right.SetVisibility(Visible);
        right.SetText(text);
      } else {
        right.SetVisibility(Invisible);
      }
    }

    /** `getKey(String)`: the first key whose text equals the argument; a null argument equals
        no text. */
    method GetKey(text: Option<string>) returns (r: Key?)
      ensures text.None? ==> r == null
      ensures text.Some? ==> r == KeyWithText(text.value)
    {
      for i := 0 to |keys|
        invariant text.Some? ==> forall j :: 0 <= j < i ==> TextsOf(keys)[j] != text.value
      {
        if Some(keys[i].GetText()) == text {
          FirstMatchAt(TextsOf(keys), text.value, i);
          return keys[i];
        }
      }
      return null;
    }

    /** `getKey(Integer)`: the first key whose text is `String.valueOf(value)`, the decimal text
        of the value or "null" for a null value. */
    method GetKeyByValue(value: Option<Int32>) returns (r: Key?)
      ensures r == KeyWithText(ValueOf(value))
    {
      for i := 0 to |keys|
        invariant forall j :: 0 <= j < i ==> TextsOf(keys)[j] != ValueOf(value)
      {
        var str := ValueOf(value);
        if keys[i].GetText() == str {
          FirstMatchAt(TextsOf(keys), str, i);
          return keys[i];
        }
      }
      return null;
    }

    /** `getKeyAt`: the key at a position, null past the end. A negative position makes the list
        throw, so it is excluded. */
    function GetKeyAt(position: int): (r: Key?)
      requires 0 <= position
      reads this, keys`position
      ensures position >= |keys| ==> r == null
      ensures position < |keys| ==> r == keys[position]
      ensures Positioned() && r != null ==> r.position == position
    {
      if position >= |keys| then null else keys[position]
    }

    /** `setKeyMargins(Key, l, t, r, b)`: a null key is ignored. */
    method SetKeyMargins(key: Key?, l: int, t: int, r: int, b: int)
      modifies (if key == null then {} else {key})`margins
      ensures key != null ==> key.margins == Margins(l, t, r, b)
    {
      if key != null {
        key.margins := Margins(l, t, r, b);
      }
    }

    /** `setKeyMargins(String, l, t, r, b)`: the margins of the first key with that text. */
    method SetKeyMarginsByText(text: Option<string>, l: int, t: int, r: int, b: int)
      modifies keys`margins
      ensures forall k | k in keys ::
        k.margins == (if text.Some? && k == KeyWithText(text.value) then Margins(l, t, r, b) else old(k.margins))
    {
      var key := GetKey(text);
      SetKeyMargins(key, l, t, r, b);
    }

    /** `setKeyMargins(Integer, l, t, r, b)`: the margins of the first key with that value. */
    method SetKeyMarginsByValue(value: Option<Int32>, l: int, t: int, r: int, b: int)
      modifies keys`margins
      ensures forall k | k in keys ::
        k.margins == (if k == KeyWithText(ValueOf(value)) then Margins(l, t, r, b) else old(k.margins))
    {
      var key := GetKeyByValue(value);
      SetKeyMargins(key, l, t, r, b);
    }

    /** `setKeyMargins(Key, margin)`: the same margin on all four sides. */
    method SetKeyMargin(key: Key?, margin: int)
      modifies (if key == null then {} else {key})`margins
      ensures key != null ==> key.margins == Uniform(margin)
    {
      SetKeyMargins(key, margin, margin, margin, margin);
    }

    /** `setKeyMargins(String, margin)`. */
    method SetKeyMarginByText(text: Option<string>, margin: int)
      modifies keys`margins
      ensures forall k | k in keys ::
        k.margins == (if text.Some? && k == KeyWithText(text.value) then Uniform(margin) else old(k.margins))
    {
      var key := GetKey(text);
      SetKeyMargins(key, margin, margin, margin, margin);
    }

    /** `setKeyMargins(Integer, margin)`. */
    method SetKeyMarginByValue(value: Option<Int32>, margin: int)
      modifies keys`margins
      ensures forall k | k in keys ::
        k.margins == (if k == KeyWithText(ValueOf(value)) then Uniform(margin) else old(k.margins))
    {
      var key := GetKeyByValue(value);
      SetKeyMargins(key, margin, margin, margin, margin);
    }

    /** `setKeysMargins(l, t, r, b)`: every key gets exactly these margins. */
    method SetKeysMargins(l: int, t: int, r: int, b: int)
      modifies keys`margins
      ensures forall k | k in keys :: k.margins == Margins(l, t, r, b)
    {
      for i := 0 to |keys|
        invariant forall j :: 0 <= j < i ==> keys[j].margins == Margins(l, t, r, b)
      {
        SetKeyMargins(keys[i], l, t, r, b);
      }
    }

    /** `setKeysMargins(margin)`: every key gets the margin on all four sides. */
    method SetKeysMargin(margin: int)
      modifies keys`margins
      ensures forall k | k in keys :: k.margins == Uniform(margin)
    {
      SetKeysMargins(margin, margin, margin, margin);
    }

    /** `setKeysBackground`: both sub-views of every key get the background. */
    method SetKeysBackground(background: int)
      modifies keys`textBackground, keys`iconBackground
      ensures forall k | k in keys :: k.textBackground == background && k.iconBackground == background
    {
      for i := 0 to |keys|
        invariant forall j :: 0 <= j < i ==> keys[j].textBackground == background && keys[j].iconBackground == background
      {
        keys[i].SetKeyBackground(background);
      }
    }

    /** `setKeysTextColor`. */
    method SetKeysTextColor(color: int)
      modifies keys`textColor
      ensures forall k | k in keys :: k.textColor == color
    {
      for i := 0 to |keys|
        invariant forall j :: 0 <= j < i ==> keys[j].textColor == color
      {
        keys[i].SetTextColor(color);
      }
    }

    /** `setKeysWrapperBackground`. */
    method SetKeysWrapperBackground(background: int)
      modifies keys`wrapperBackground
      ensures forall k | k in keys :: k.wrapperBackground == background
    {
      for i := 0 to |keys|
        invariant forall j :: 0 <= j < i ==> keys[j].wrapperBackground == background
      {
        keys[i].SetWrapperBackground(background);
      }
    }

    /** `setAllKeysParams`: on every key, the tint when non-zero, the background (by default
        `key_background`), the text colour (by default darker grey) and the wrapper background
        when non-zero. */
    method SetAllKeysParams(attrs: PadAttributes)
      modifies keys`iconTint, keys`textBackground, keys`iconBackground, keys`textColor, keys`wrapperBackground
      ensures Painted(keys, attrs.keysBackground.GetOr(KeyBackground), attrs.keysTextColor.GetOr(DarkerGray))
      ensures forall k | k in keys ::
        k.iconTint == (if attrs.keysIconTint.GetOr(0) != 0 then attrs.keysIconTint.value else old(k.iconTint))
      ensures forall k | k in keys ::
        k.wrapperBackground == (if attrs.keysWrapperBackground.GetOr(0) != 0 then attrs.keysWrapperBackground.value
                                else old(k.wrapperBackground))
    {
      var background := attrs.keysBackground.GetOr(KeyBackground);
      var textColor := attrs.keysTextColor.GetOr(DarkerGray);
      var wrapperBackground := attrs.keysWrapperBackground.GetOr(0);
      var tint := attrs.keysIconTint.GetOr(0);
      for i := 0 to |keys|
        invariant forall j :: 0 <= j < i ==>
          keys[j].textBackground == background && keys[j].iconBackground == background && keys[j].textColor == textColor
        invariant forall k | k in keys ::
          k.iconTint == (if tint != 0 && k in keys[..i] then tint else old(k.iconTint))
        invariant forall k | k in keys ::
          k.wrapperBackground == (if wrapperBackground != 0 && k in keys[..i] then wrapperBackground else old(k.wrapperBackground))
      {
        var k := keys[i];
        if tint != 0 {
          k.SetIconTint(tint);
        }
        k.SetKeyBackground(background);
        k.SetTextColor(textColor);
        if wrapperBackground != 0 {
          k.SetWrapperBackground(wrapperBackground);
        }
      }
    }
  }
}
