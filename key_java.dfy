/** `Key.java`: one keypad key, a wrapper layout holding a text sub-view and an icon sub-view. */
module KeyJava {
  import opened Wrappers
  import opened Views

  class Key {
    /** Position of the key inside its keypad. */
    var position: int
    // The text sub-view.
    var text: string
    var textColor: int
    var textBackground: int
    var textVisibility: Visibility
    // The icon sub-view; its layout parameters hold the width and height.
    var iconImage: int
    var iconTint: int
    var iconBackground: int
    var iconWidth: int
    var iconHeight: int
    var iconVisibility: Visibility
    /** Background of the wrapper layout `root`. */
    var wrapperBackground: int
    /** Visibility of the key as a whole. */
    var visibility: Visibility
    /** Layout margins of the key inside its parent. */
    var margins: Margins

    function Showing(): Shown
      reads this`textVisibility, this`iconVisibility
    {
      Shown(textVisibility, iconVisibility)
    }

    /** Inflates `R.layout.key` (whose initial state is `layout`) and, when XML attributes are
        given, applies them. */
    constructor (layout: KeyLayout, attrs: Option<KeyAttributes>)
      ensures position == 0 && margins == layout.margins && visibility == layout.visibility
      ensures attrs.None? ==>
        text == layout.text && textColor == layout.textColor &&
        textBackground == layout.textBackground && iconBackground == layout.iconBackground &&
        iconImage == layout.iconImage && iconTint == layout.iconTint &&
        iconWidth == layout.iconWidth && iconHeight == layout.iconHeight &&
        wrapperBackground == layout.wrapperBackground &&
        Showing() == Shown(layout.textVisibility, layout.iconVisibility)
      ensures attrs.Some? ==> text == attrs.value.value.GetOr("") && textColor == attrs.value.textColor.GetOr(DarkerGray)
      ensures attrs.Some? ==>
        var bg := attrs.value.background.GetOr(KeyBackground);
        textBackground == bg && iconBackground == bg
      ensures attrs.Some? ==>
        var icon := attrs.value.icon.GetOr(0);
        iconImage == (if icon != 0 then icon else layout.iconImage)
      ensures attrs.Some? ==>
        var tint := attrs.value.tint.GetOr(0);
        iconTint == (if tint != 0 then tint else layout.iconTint)
      ensures attrs.Some? ==>
        var wrapper := attrs.value.wrapper.GetOr(0);
        wrapperBackground == (if wrapper != 0 then wrapper else layout.wrapperBackground)
      ensures attrs.Some? ==>
        var size := attrs.value.iconSize.GetOr(0);
        iconWidth == (if size != 0 then size else layout.iconWidth) &&
        iconHeight == (if size != 0 then size else layout.iconHeight)
      ensures attrs.Some? ==>
        var s := Views.HideIcon(Shown(layout.textVisibility, layout.iconVisibility));
        Showing() == if attrs.value.icon.GetOr(0) != 0 then Views.HideText(s) else s
    {
      position := 0;
      text, textColor, textBackground, textVisibility := layout.text, layout.textColor, layout.textBackground, layout.textVisibility;
      iconImage, iconTint, iconBackground := layout.iconImage, layout.iconTint, layout.iconBackground;
      iconWidth, iconHeight, iconVisibility := layout.iconWidth, layout.iconHeight, layout.iconVisibility;
      wrapperBackground, visibility, margins := layout.wrapperBackground, layout.visibility, layout.margins;
      new;
      if attrs.Some? {
        ApplyAttributes(attrs.value);
      }
    }

    /** The constructor's `attrs != null` branch: the setters, in the source's order, with the
        looked-up attribute values (the text colour defaults to darker grey). */
    method ApplyAttributes(a: KeyAttributes)
      modifies this`text, this`textColor, this`textBackground, this`textVisibility, this`iconImage,
        this`iconTint, this`iconBackground, this`iconWidth, this`iconHeight, this`iconVisibility,
        this`wrapperBackground
      ensures text == a.value.GetOr("") && textColor == a.textColor.GetOr(DarkerGray)
      ensures var bg := a.background.GetOr(KeyBackground);
        textBackground == bg && iconBackground == bg
      ensures iconImage == (if a.icon.GetOr(0) != 0 then a.icon.value else old(iconImage))
      ensures iconTint == (if a.tint.GetOr(0) != 0 then a.tint.value else old(iconTint))
      ensures wrapperBackground == (if a.wrapper.GetOr(0) != 0 then a.wrapper.value else old(wrapperBackground))
      ensures var size := a.iconSize.GetOr(0);
        iconWidth == (if size != 0 then size else old(iconWidth)) &&
        iconHeight == (if size != 0 then size else old(iconHeight))
      ensures var s := Views.HideIcon(old(Showing()));
        Showing() == if a.icon.GetOr(0) != 0 then Views.HideText(s) else s
    {
      SetText(a.value);
      SetTextColor(a.textColor.GetOr(DarkerGray));
      SetKeyBackground(a.background.GetOr(KeyBackground));
      if a.iconSize.GetOr(0) != 0 {
        SetIconSize(a.iconSize.value);
      }
      if a.wrapper.GetOr(0) != 0 {
        SetWrapperBackground(a.wrapper.value);
      }
      if a.icon.GetOr(0) != 0 {
        SetIcon(a.icon.value);
      }
      if a.tint.GetOr(0) != 0 {
        SetIconTint(a.tint.value);
      }
    }

    function GetPosition(): int
      reads this`position
    {
      position
    }

    /** Sets only the position index; the layout does not move. */
    method SetPosition(p: int)
      modifies this`position
      ensures GetPosition() == p
    {
      position := p;
    }

    /** The text sub-view's text. */
    function GetText(): string
      reads this`text
    {
      text
    }

    /** Runs hideIcon, then writes the text; a TextView shows a null text as the empty text. */
    method SetText(v: Option<string>)
      modifies this`text, this`textVisibility, this`iconVisibility
      ensures GetText() == v.GetOr("")
      ensures Showing() == Views.HideIcon(old(Showing()))
    {
      HideIcon();
      text := v.GetOr("");
    }

    /** Runs hideText, then gives the icon sub-view the image resource. */
    method SetIcon(iconRes: int)
      modifies this`iconImage, this`textVisibility, this`iconVisibility
      ensures iconImage == iconRes
      ensures Showing() == Views.HideText(old(Showing()))
    {
      HideText();
      iconImage := iconRes;
    }

    /** The colour filter of the icon sub-view. */
    method SetIconTint(color: int)
      modifies this`iconTint
      ensures iconTint == color
    {
      iconTint := color;
    }

    /** The same background resource on both sub-views. */
    method SetKeyBackground(res: int)
      modifies this`textBackground, this`iconBackground
      ensures textBackground == res && iconBackground == res
      ensures GetKeyBackground() == res
    {
      textBackground := res;
      iconBackground := res;
    }

    /** Reads the background back from the text sub-view. */
    function GetKeyBackground(): int
      reads this`textBackground
    {
      textBackground
    }

    method SetTextColor(color: int)
      modifies this`textColor
      ensures textColor == color
    {
      textColor := color;
    }

    function GetWrapperBackground(): int
      reads this`wrapperBackground
    {
      wrapperBackground
    }

    method SetWrapperBackground(res: int)
      modifies this`wrapperBackground
      ensures GetWrapperBackground() == res
    {
      wrapperBackground := res;
    }

    /** Sets the icon sub-view's width and height to the same size. */
    method SetIconSize(size: int)
      modifies this`iconWidth, this`iconHeight
      ensures iconWidth == size && iconHeight == size
    {
      iconWidth := size;
      iconHeight := size;
    }

    /** Swaps the pair only from (GONE, VISIBLE), to (VISIBLE, GONE): it shows the text and hides
        the icon. */
    method HideIcon()
      modifies this`textVisibility, this`iconVisibility
      ensures Showing() == Views.HideIcon(old(Showing()))
    {
      if textVisibility == Gone && iconVisibility == Visible {
        textVisibility := Visible;
        iconVisibility := Gone;
      }
    }

    /** Swaps the pair only from (VISIBLE, GONE), to (GONE, VISIBLE): it shows the icon and hides
        the text. */
    method HideText()
      modifies this`textVisibility, this`iconVisibility
      ensures Showing() == Views.HideText(old(Showing()))
    {
      if textVisibility == Visible && iconVisibility == Gone {
        textVisibility := Gone;
        iconVisibility := Visible;
      }
    }

    /** `View.setVisibility`, inherited from the Android view. */
    method SetVisibility(v: Visibility)
      modifies this`visibility
      ensures visibility == v
    {
      visibility := v;
    }
  }
}
