/** `Key.kt`: the Kotlin revision of a keypad key. Every property keeps its value in a backing
    field; the setters also write the Android sub-views. */
module KeyKt {
  import opened Wrappers
  import opened Views

  class Key {
    // Backing fields of the properties.
    var position: int
    var text: string
    var textColor: int
    var icon: int
    var iconSize: int
    var iconTint: int
    var background: int
    var wrapperBackground: int
    // State of the inflated sub-views that the setters write.
    var textVisibility: Visibility
    var iconVisibility: Visibility
    var textBackground: int
    var iconBackground: int
    var iconWidth: int
    var iconHeight: int
    /** Visibility of the key as a whole. */
    var visibility: Visibility
    /** Layout margins of the key inside its parent. */
    var margins: Margins

    function Showing(): Shown
      reads this`textVisibility, this`iconVisibility
    {
      Shown(textVisibility, iconVisibility)
    }

    /** The `init` block, then the inflation of `R.layout.key` (whose initial state is `layout`),
        then the XML attributes when given. The `init` block runs before the layout is
        inflated, while `textView` and `iconView` are still null, so its setters write only the
        backing fields and their hideIcon/hideText find nothing to switch. */
    constructor (layout: KeyLayout, attrs: Option<KeyAttributes>)
      requires attrs.Some? ==> attrs.value.value.Some?
      ensures position == 0 && margins == layout.margins && visibility == layout.visibility
      ensures attrs.None? ==>
        text == "" && textColor == 0 && icon == 0 && iconSize == 0 && iconTint == 0 &&
        background == KeyBackground && wrapperBackground == 0
      ensures attrs.None? ==>
        Showing() == Shown(layout.textVisibility, layout.iconVisibility) &&
        textBackground == layout.textBackground && iconBackground == layout.iconBackground &&
        iconWidth == layout.iconWidth && iconHeight == layout.iconHeight
      ensures attrs.Some? ==> text == attrs.value.value.value && textColor == attrs.value.textColor.GetOr(0)
      ensures attrs.Some? ==>
        var bg := attrs.value.background.GetOr(KeyBackground);
        background == bg && textBackground == bg && iconBackground == bg
      ensures attrs.Some? ==>
        icon == attrs.value.icon.GetOr(0) && iconTint == attrs.value.tint.GetOr(0) &&
        wrapperBackground == attrs.value.wrapper.GetOr(0) && iconSize == attrs.value.iconSize.GetOr(0)
      ensures attrs.Some? ==>
        var size := attrs.value.iconSize.GetOr(0);
        iconWidth == (if size != 0 then size else layout.iconWidth) &&
        iconHeight == (if size != 0 then size else layout.iconHeight)
      ensures attrs.Some? ==>
        var s := Views.HideIcon(Shown(layout.textVisibility, layout.iconVisibility));
        Showing() == if attrs.value.icon.GetOr(0) != 0 then Views.HideText(s) else s
    {
      // init
      position := 0;
      text := "";
      textColor := 0;
      icon := 0;
      iconSize := 0;
      iconTint := 0;
      background := KeyBackground;
      wrapperBackground := 0;
      // View.inflate
      textVisibility, iconVisibility := layout.textVisibility, layout.iconVisibility;
      textBackground, iconBackground := layout.textBackground, layout.iconBackground;
      iconWidth, iconHeight := layout.iconWidth, layout.iconHeight;
      visibility, margins := layout.visibility, layout.margins;
      new;
      if attrs.Some? {
        ApplyAttributes(attrs.value);
      }
    }

    /** The constructor's `attrs != null` branch: the property setters, in the source's order,
        with the looked-up attribute values. */
    method ApplyAttributes(a: KeyAttributes)
      requires a.value.Some?
      modifies this`text, this`textColor, this`icon, this`iconSize, this`iconTint, this`background,
        this`wrapperBackground, this`textVisibility, this`iconVisibility, this`textBackground,
        this`iconBackground, this`iconWidth, this`iconHeight
      ensures text == a.value.value && textColor == a.textColor.GetOr(0)
      ensures var bg := a.background.GetOr(KeyBackground);
        background == bg && textBackground == bg && iconBackground == bg
      ensures icon == (if a.icon.GetOr(0) != 0 then a.icon.value else old(icon))
      ensures iconTint == (if a.tint.GetOr(0) != 0 then a.tint.value else old(iconTint))
      ensures wrapperBackground == (if a.wrapper.GetOr(0) != 0 then a.wrapper.value else old(wrapperBackground))
      ensures iconSize == (if a.iconSize.GetOr(0) != 0 then a.iconSize.value else old(iconSize))
      ensures var size := a.iconSize.GetOr(0);
        iconWidth == (if size != 0 then size else old(iconWidth)) &&
        iconHeight == (if size != 0 then size else old(iconHeight))
      ensures var s := Views.HideIcon(old(Showing()));
        Showing() == if a.icon.GetOr(0) != 0 then Views.HideText(s) else s
    {
      SetText(a.value.value);
      SetTextColor(a.textColor.GetOr(0));
      SetBackground(a.background.GetOr(KeyBackground));
      if a.icon.GetOr(0) != 0 {
        SetIcon(a.icon.value);
      }
      if a.iconSize.GetOr(0) != 0 {
        SetIconSize(a.iconSize.value);
      }
      if a.tint.GetOr(0) != 0 {
        SetIconTint(a.tint.value);
      }
      if a.wrapper.GetOr(0) != 0 {
        SetWrapperBackground(a.wrapper.value);
      }
    }

    method SetPosition(p: int)
      modifies this`position
      ensures position == p
    {
      position := p;
    }

    /** The `text` setter: hideIcon, then the text sub-view and the backing field. */
    method SetText(value: string)
      modifies this`text, this`textVisibility, this`iconVisibility
      ensures text == value
      ensures Showing() == Views.HideIcon(old(Showing()))
    {
      HideIcon();
      text := value;
    }

    method SetTextColor(value: int)
      modifies this`textColor
      ensures textColor == value
    {
      textColor := value;
    }

    /** The `icon` setter: hideText, then the icon sub-view and the backing field. */
    method SetIcon(value: int)
      modifies this`icon, this`textVisibility, this`iconVisibility
      ensures icon == value
      ensures Showing() == Views.HideText(old(Showing()))
    {
      HideText();
      icon := value;
    }

    /** The `iconSize` setter: the icon sub-view's height and width both become the value. */
    method SetIconSize(value: int)
      modifies this`iconSize, this`iconWidth, this`iconHeight
      ensures iconSize == value && iconWidth == value && iconHeight == value
    {
      iconHeight := value;
      iconWidth := value;
      iconSize := value;
    }

    method SetIconTint(value: int)
      modifies this`iconTint
      ensures iconTint == value
    {
      iconTint := value;
    }

    /** The `background` setter: the same resource on both sub-views. */
    method SetBackground(value: int)
      modifies this`background, this`textBackground, this`iconBackground
      ensures background == value && textBackground == value && iconBackground == value
    {
      textBackground := value;
      iconBackground := value;
      background := value;
    }

    method SetWrapperBackground(value: int)
      modifies this`wrapperBackground
      ensures wrapperBackground == value
    {
      wrapperBackground := value;
    }

    /** Swaps the pair only from (GONE, VISIBLE), to (VISIBLE, GONE): it shows the text. */
    method HideIcon()
      modifies this`textVisibility, this`iconVisibility
      ensures Showing() == Views.HideIcon(old(Showing()))
    {
      if textVisibility == Gone && iconVisibility == Visible {
        textVisibility := Visible;
        iconVisibility := Gone;
      }
    }

    /** Swaps the pair only from (VISIBLE, GONE), to (GONE, VISIBLE): it shows the icon. */
    method HideText()
      modifies this`textVisibility, this`iconVisibility
      ensures Showing() == Views.HideText(old(Showing()))
    {
      if textVisibility == Visible && iconVisibility == Gone {
        textVisibility := Gone;
        iconVisibility := Visible;
      }
    }

    /** Makes the whole key INVISIBLE; the result does not depend on the state before, so a
        second call changes nothing. */
    method Hide()
      modifies this`visibility
      ensures visibility == Invisible
    {
      visibility := Invisible;
    }

    /** Makes the whole key VISIBLE; a second call changes nothing. */
    method Show()
      modifies this`visibility
      ensures visibility == Visible
    {
      visibility := Visible;
    }
  }
}
