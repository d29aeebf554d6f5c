# keypad-view, modelled in Dafny

keypad-view is an Android library that draws a numeric keypad. A `KeyPad` is a layout that
holds:

- an ordered list of `Key` views, found by walking the inflated layout tree;
- two distinguished side keys, `left` and `right`.

A `Key` is a small layout with a text sub-view and an icon sub-view. It normally shows exactly
one of the two, and a two-state toggle (`hideIcon` / `hideText`) switches between them. The
library exists in two revisions of the same two classes, one in Java (`Key.java`,
`KeyPad.java`) and one in Kotlin (`Key.kt`, `KeyPad.kt`). Both are modelled, each in its own
module.

The Android views are replaced by plain fields:

- Each key is a `class` whose fields hold its position, text, colours, icon resource, icon
  size, backgrounds, the visibilities of its two sub-views, its own visibility and its layout
  margins.
- The pad is a `class` holding the list of keys as a `seq<Key>` and the two side keys.
- Every setter is a `method` with a field-level `modifies` frame, so "nothing else changes" is
  part of each contract.
- The view tree searched by `findAllKeys` is a datatype: a Key, a group of children, or any
  other view.
- XML attributes are passed to the constructors already looked up, as records of optional
  values.

Modules:

- `Wrappers`: `Option`.
- `Text`:
  - `Int32`;
  - `Decimal`, which is `Integer.toString`, with its parser `ParseDecimal` and the round trip
    between them;
  - `ValueOf`, which is `String.valueOf(Integer)`;
  - `FirstIndexOf`, the first-match search.
- `Views`:
  - the visibility pair and the two toggles as functions;
  - margins;
  - the view tree and its depth-first flattening;
  - the attribute records;
  - the resource constants.
- `KeyJava`, `KeyKt`: the two `Key` classes.
- `KeyPadJava`, `KeyPadKt`: the two `KeyPad` classes.

Each pad constructor runs its steps in its own source's order:

- `KeyPad.java`: the key collection, the position loop, the side texts, the per-side margins,
  the uniform margin, the side icons, then the per-key attributes (`setAllKeysParams`).
- `KeyPad.kt`: the key collection and the position loop. Then, with attributes: the per-side
  margins, the uniform margin, the per-key loop, the side texts (or hides), then the side icons.

For proof economy these steps are grouped into helper methods (`Initialize`, `ConfigureKeys`,
`Configure`, …). Each helper's contract is what the constructor's own contract is assembled
from.

Three behaviours of the source are worth knowing when reading the model:

- The doc comments of `hideIcon` ("Replaces the text with an icon") and `hideText` ("Replaces
  the icon with a text") describe the opposite of the code. The model follows the code:
  `hideIcon` turns (text GONE, icon VISIBLE) into (VISIBLE, GONE) and leaves every other pair
  alone; `hideText` does the reverse.
- Both pad constructors call the per-side margin setter and then the uniform one. The uniform
  call's default is 0, so it runs even when no `keysMargin` attribute is set. The per-side
  attributes `keysMarginLeft` … `keysMarginBottom` therefore never survive construction: every
  key ends with the uniform margin, or 0, on all four sides. The constructor contracts state
  exactly that.
- In `KeyPad.kt`, `findAllKeys` loops over `0..childCount`, with both ends included. Its last
  `getChildAt` is one past the end and returns null, which is neither a Key nor a group, so
  the extra step does nothing. The model keeps the inclusive loop, and its contract is the same
  as the Java traversal's (`found == keys + Flatten(root)`).

## Model

All source paths are under `keypad-view/src/main/java/com/maxpilotto/keypadview/`, written out
in full below.

| member | source | states |
|---|---|---|
| Views.HideIcon | keypad-view/src/main/java/com/maxpilotto/keypadview/Key.java:235-240 | from (GONE text, VISIBLE icon) the pair becomes text-only (VISIBLE, GONE); every other pair is returned unchanged |
| Views.HideText | keypad-view/src/main/java/com/maxpilotto/keypadview/Key.java:245-250 | from (VISIBLE, GONE) the pair becomes icon-only (GONE, VISIBLE); every other pair is returned unchanged |
| Views.HideIconIdempotent | keypad-view/src/main/java/com/maxpilotto/keypadview/Key.java:235-240 | hideIcon applied twice gives the same pair as applied once |
| Views.HideTextIdempotent | keypad-view/src/main/java/com/maxpilotto/keypadview/Key.java:245-250 | hideText applied twice gives the same pair as applied once |
| Views.TogglesPreserveExclusive | keypad-view/src/main/java/com/maxpilotto/keypadview/Key.java:235-250 | a pair is exclusive (exactly one sub-view shown, the other gone) iff its image under either toggle is; a toggle changes only the one exclusive state it starts from |
| Views.TogglesUndoEachOther | keypad-view/src/main/java/com/maxpilotto/keypadview/Key.java:235-250 | hideText undoes hideIcon on the icon-only state, and hideIcon undoes hideText on the text-only state |
| Views.FlattenReaches | keypad-view/src/main/java/com/maxpilotto/keypadview/KeyPad.java:426-436 | a key is in the depth-first key list of a tree iff it is reachable from the root through view groups only (the search never looks inside a Key) |
| Views.FlattenAllReaches | keypad-view/src/main/java/com/maxpilotto/keypadview/KeyPad.java:427-435 | the keys of a list of siblings are exactly the keys reachable from one of them |
| Views.FlattenAllSnoc | keypad-view/src/main/java/com/maxpilotto/keypadview/KeyPad.java:427-435 | visiting one more child appends exactly that child's keys after the keys found so far |
| Views.DistinctElements | keypad-view/src/main/java/com/maxpilotto/keypadview/KeyPad.java:55-57 | a list without repeated keys holds different keys at different indices, which the position loop relies on |
| Text.NaturalDecimal | keypad-view/src/main/java/com/maxpilotto/keypadview/KeyPad.kt:237-239 | the decimal digits of a natural number are non-empty, all digits, and start with '0' only for zero |
| Text.Decimal | keypad-view/src/main/java/com/maxpilotto/keypadview/KeyPad.kt:237-239 | `Int.toString` is non-empty and starts with '-' exactly for negative values, followed by digits |
| Text.ParseNaturalDecimal | keypad-view/src/main/java/com/maxpilotto/keypadview/KeyPad.kt:237-239 | reading back the digits of n gives n |
| Text.ParseDecimalDecimal | keypad-view/src/main/java/com/maxpilotto/keypadview/KeyPad.kt:237-239 | reading back `Int.toString(n)` gives n, for negative n too |
| Text.DecimalInjective | keypad-view/src/main/java/com/maxpilotto/keypadview/KeyPad.kt:237-239 | two integers have the same decimal text iff they are equal |
| Text.ValueOf | keypad-view/src/main/java/com/maxpilotto/keypadview/KeyPad.java:189-191 | `String.valueOf` of an Integer is "null" exactly for a null Integer |
| Text.ValueOfInjective | keypad-view/src/main/java/com/maxpilotto/keypadview/KeyPad.java:189-193 | two Integers, null included, give the same `String.valueOf` text iff they are equal |
| Text.FirstIndexOf | keypad-view/src/main/java/com/maxpilotto/keypadview/KeyPad.java:173-181 | a found index holds the text and no earlier index does; nothing is found iff no element equals the text |
| Text.FirstMatchAt | keypad-view/src/main/java/com/maxpilotto/keypadview/KeyPad.java:174-178 | the index where a left-to-right scan first meets the text is the first match |
| KeyJava.Key.constructor | keypad-view/src/main/java/com/maxpilotto/keypadview/Key.java:32-76 | position 0 and the inflated layout's state. With attributes: the text (null shown as ""), the text colour (default darker grey), the background on both sub-views (default `key_background`), icon size, wrapper background, icon and tint only when non-zero, and the pair after hideIcon, then hideText when there is an icon |
| KeyJava.Key.ApplyAttributes | keypad-view/src/main/java/com/maxpilotto/keypadview/Key.java:41-75 | the attribute branch in its order: every field it writes, the ones it may skip kept when their attribute is 0 |
| KeyJava.Key.SetPosition | keypad-view/src/main/java/com/maxpilotto/keypadview/Key.java:95-106 | getPosition returns the position just set; only the position changes |
| KeyJava.Key.SetText | keypad-view/src/main/java/com/maxpilotto/keypadview/Key.java:113-126 | the pair is hideIcon of the old pair and getText returns the text (a null text reads back as ""); nothing else changes |
| KeyJava.Key.SetIcon | keypad-view/src/main/java/com/maxpilotto/keypadview/Key.java:133-137 | the pair is hideText of the old pair and the icon is the resource; nothing else changes |
| KeyJava.Key.SetIconTint | keypad-view/src/main/java/com/maxpilotto/keypadview/Key.java:142-144 | only the icon tint changes, to the colour |
| KeyJava.Key.SetKeyBackground | keypad-view/src/main/java/com/maxpilotto/keypadview/Key.java:151-163 | both sub-views get the resource and getKeyBackground (the text sub-view's) returns it |
| KeyJava.Key.SetTextColor | keypad-view/src/main/java/com/maxpilotto/keypadview/Key.java:170-172 | only the text colour changes |
| KeyJava.Key.SetWrapperBackground | keypad-view/src/main/java/com/maxpilotto/keypadview/Key.java:179-191 | getWrapperBackground returns the resource just set; nothing else changes |
| KeyJava.Key.SetIconSize | keypad-view/src/main/java/com/maxpilotto/keypadview/Key.java:207-212 | the icon's width and height both become the size; nothing else changes |
| KeyJava.Key.HideIcon | keypad-view/src/main/java/com/maxpilotto/keypadview/Key.java:235-240 | the pair becomes Views.HideIcon of the old pair; nothing else changes |
| KeyJava.Key.HideText | keypad-view/src/main/java/com/maxpilotto/keypadview/Key.java:245-250 | the pair becomes Views.HideText of the old pair; nothing else changes |
| KeyJava.Key.SetVisibility | keypad-view/src/main/java/com/maxpilotto/keypadview/KeyPad.java:64 | the key's own visibility becomes the value; nothing else changes |
| KeyKt.Key.constructor | keypad-view/src/main/java/com/maxpilotto/keypadview/Key.kt:123-176 | without attributes: the `init` defaults (position 0, text "", colour, icon, icon size and tint 0, background `key_background`, wrapper 0) with the layout's view state. With attributes: text, colour (default 0) and background (default `key_background`) always written, icon, icon size, tint and wrapper as the attribute or 0, the icon's width and height only for a non-zero size, and the pair after hideIcon, then hideText for a non-zero icon |
| KeyKt.Key.ApplyAttributes | keypad-view/src/main/java/com/maxpilotto/keypadview/Key.kt:142-175 | the attribute branch in its order: every backing field and view field it writes, the skipped ones kept when their attribute is 0 |
| KeyKt.Key.SetPosition | keypad-view/src/main/java/com/maxpilotto/keypadview/Key.kt:40 | only the position changes, to the value |
| KeyKt.Key.SetText | keypad-view/src/main/java/com/maxpilotto/keypadview/Key.kt:45-51 | the backing field holds the text, which reads back, and the pair is hideIcon of the old pair |
| KeyKt.Key.SetTextColor | keypad-view/src/main/java/com/maxpilotto/keypadview/Key.kt:56-60 | the text colour reads back as written; nothing else changes |
| KeyKt.Key.SetIcon | keypad-view/src/main/java/com/maxpilotto/keypadview/Key.kt:74-80 | the icon reads back as written and the pair is hideText of the old pair |
| KeyKt.Key.SetIconSize | keypad-view/src/main/java/com/maxpilotto/keypadview/Key.kt:85-92 | the size reads back, and the icon's width and height both equal it |
| KeyKt.Key.SetIconTint | keypad-view/src/main/java/com/maxpilotto/keypadview/Key.kt:97-101 | the tint reads back as written; nothing else changes |
| KeyKt.Key.SetBackground | keypad-view/src/main/java/com/maxpilotto/keypadview/Key.kt:106-111 | the background reads back, and both sub-views show the same resource |
| KeyKt.Key.SetWrapperBackground | keypad-view/src/main/java/com/maxpilotto/keypadview/Key.kt:117-121 | the wrapper background reads back as written; nothing else changes |
| KeyKt.Key.HideIcon | keypad-view/src/main/java/com/maxpilotto/keypadview/Key.kt:203-208 | the pair becomes Views.HideIcon of the old pair; nothing else changes |
| KeyKt.Key.HideText | keypad-view/src/main/java/com/maxpilotto/keypadview/Key.kt:213-218 | the pair becomes Views.HideText of the old pair; nothing else changes |
| KeyKt.Key.Hide | keypad-view/src/main/java/com/maxpilotto/keypadview/Key.kt:223-225 | the key is INVISIBLE afterwards, whatever it was (so a second call changes nothing); only the visibility changes |
| KeyKt.Key.Show | keypad-view/src/main/java/com/maxpilotto/keypadview/Key.kt:230-232 | the key is VISIBLE afterwards, whatever it was; only the visibility changes |
| KeyPadJava.TextsOf | keypad-view/src/main/java/com/maxpilotto/keypadview/KeyPad.java:174-175 | the list of key texts has one entry per key, in order |
| KeyPadJava.FindAllKeys | keypad-view/src/main/java/com/maxpilotto/keypadview/KeyPad.java:426-436 | the list afterwards is the list before, untouched, followed by the tree's keys in depth-first order |
| KeyPadJava.ShowSideText | keypad-view/src/main/java/com/maxpilotto/keypadview/KeyPad.java:62-70 | a given text is written (hideIcon first) and the side key made VISIBLE; without one the key keeps its text, pair and visibility |
| KeyPadJava.ShowSideIcon | keypad-view/src/main/java/com/maxpilotto/keypadview/KeyPad.java:83-89 | a non-zero icon shows the side key and is written (hideText first); a zero one changes nothing |
| KeyPadJava.SetSideKeyIcon | keypad-view/src/main/java/com/maxpilotto/keypadview/KeyPad.java:103-117 | the side key becomes VISIBLE with the icon, and its pair is hideText of the old pair |
| KeyPadJava.KeyPad.KeyWithTextMeaning | keypad-view/src/main/java/com/maxpilotto/keypadview/KeyPad.java:173-181 | the key found for a text is in the list, carries that text, and every key before it has another text; nothing is found iff no key carries it |
| KeyPadJava.KeyPad.FoundByValue | keypad-view/src/main/java/com/maxpilotto/keypadview/KeyPad.java:189-199 | the key found by an Integer carries `String.valueOf` of it, and two different Integers never find the same key |
| KeyPadJava.KeyPad.constructor | keypad-view/src/main/java/com/maxpilotto/keypadview/KeyPad.java:43-95 | keys are the tree's keys in depth-first order, numbered by index, all with the uniform margin (0 when absent). Background (default `key_background`) and text colour (default darker grey) are on every key; tint and wrapper only when non-zero. Side keys: a text then a non-zero icon are written (toggling the pair); the key is VISIBLE when it got either and keeps its visibility otherwise. The field frame leaves every other field alone: the keys' texts, icons, icon sizes, visibilities and text/icon pairs, and the side keys' margins |
| KeyPadJava.KeyPad.Initialize | keypad-view/src/main/java/com/maxpilotto/keypadview/KeyPad.java:55-91 | the constructor's steps after the key collection, with the same outcome as the constructor |
| KeyPadJava.KeyPad.ConfigureKeys | keypad-view/src/main/java/com/maxpilotto/keypadview/KeyPad.java:62-91 | the steps after the numbering: margins, side keys and per-key attributes as in the constructor's contract |
| KeyPadJava.KeyPad.SetUpSideKeysAndMargins | keypad-view/src/main/java/com/maxpilotto/keypadview/KeyPad.java:62-89 | both side keys as in the constructor's contract, and every key with the uniform margin |
| KeyPadJava.KeyPad.NumberKeys | keypad-view/src/main/java/com/maxpilotto/keypadview/KeyPad.java:55-57 | afterwards every key's position is its index in the list; only positions change |
| KeyPadJava.KeyPad.ApplyMargins | keypad-view/src/main/java/com/maxpilotto/keypadview/KeyPad.java:72-81 | after the per-side call and the uniform call every key has the uniform margin on all four sides |
| KeyPadJava.KeyPad.SetLeftKeyIcon | keypad-view/src/main/java/com/maxpilotto/keypadview/KeyPad.java:103-106 | the left key becomes VISIBLE with the icon, its pair toggled by hideText |
| KeyPadJava.KeyPad.SetRightKeyIcon | keypad-view/src/main/java/com/maxpilotto/keypadview/KeyPad.java:114-117 | the right key becomes VISIBLE with the icon, its pair toggled by hideText |
| KeyPadJava.KeyPad.SetLeftKeyText | keypad-view/src/main/java/com/maxpilotto/keypadview/KeyPad.java:125-132 | a text makes the left key VISIBLE with that text (pair toggled by hideIcon); null makes it INVISIBLE and keeps its text and pair |
| KeyPadJava.KeyPad.SetRightKeyText | keypad-view/src/main/java/com/maxpilotto/keypadview/KeyPad.java:140-147 | the same rule for the right key |
| KeyPadJava.KeyPad.GetKey | keypad-view/src/main/java/com/maxpilotto/keypadview/KeyPad.java:173-181 | the first key in list order whose text equals the argument, null when none does or when the argument is null |
| KeyPadJava.KeyPad.GetKeyByValue | keypad-view/src/main/java/com/maxpilotto/keypadview/KeyPad.java:189-199 | exactly the key `getKey(String.valueOf(value))` finds, "null" for a null value |
| KeyPadJava.KeyPad.GetKeyAt | keypad-view/src/main/java/com/maxpilotto/keypadview/KeyPad.java:207-213 | null from the list's size on, the key at that index below it; on a numbered pad that key's position is the index |
| KeyPadJava.KeyPad.SetKeyMargins | keypad-view/src/main/java/com/maxpilotto/keypadview/KeyPad.java:250-256 | a key gets exactly (l, t, r, b); a null key changes nothing |
| KeyPadJava.KeyPad.SetKeyMarginsByText | keypad-view/src/main/java/com/maxpilotto/keypadview/KeyPad.java:224-226 | only the key getKey finds for the text gets the margins; every other key keeps its own |
| KeyPadJava.KeyPad.SetKeyMarginsByValue | keypad-view/src/main/java/com/maxpilotto/keypadview/KeyPad.java:237-239 | only the key getKey finds for the value gets the margins; every other key keeps its own |
| KeyPadJava.KeyPad.SetKeyMargin | keypad-view/src/main/java/com/maxpilotto/keypadview/KeyPad.java:315-317 | a key gets the uniform margin; a null key changes nothing |
| KeyPadJava.KeyPad.SetKeyMarginByText | keypad-view/src/main/java/com/maxpilotto/keypadview/KeyPad.java:295-297 | only the key found for the text gets the uniform margin |
| KeyPadJava.KeyPad.SetKeyMarginByValue | keypad-view/src/main/java/com/maxpilotto/keypadview/KeyPad.java:305-307 | only the key found for the value gets the uniform margin |
| KeyPadJava.KeyPad.SetKeysMargins | keypad-view/src/main/java/com/maxpilotto/keypadview/KeyPad.java:327-331 | every key has exactly (l, t, r, b); only margins change |
| KeyPadJava.KeyPad.SetKeysMargin | keypad-view/src/main/java/com/maxpilotto/keypadview/KeyPad.java:338-340 | every key has (m, m, m, m); only margins change |
| KeyPadJava.KeyPad.SetKeysBackground | keypad-view/src/main/java/com/maxpilotto/keypadview/KeyPad.java:381-385 | both sub-views of every key have the background; nothing else changes |
| KeyPadJava.KeyPad.SetKeysTextColor | keypad-view/src/main/java/com/maxpilotto/keypadview/KeyPad.java:392-396 | every key has the text colour; nothing else changes |
| KeyPadJava.KeyPad.SetKeysWrapperBackground | keypad-view/src/main/java/com/maxpilotto/keypadview/KeyPad.java:403-407 | every key has the wrapper background; nothing else changes |
| KeyPadJava.KeyPad.SetAllKeysParams | keypad-view/src/main/java/com/maxpilotto/keypadview/KeyPad.java:441-466 | every key gets the background (default `key_background`) and the text colour (default darker grey); tint and wrapper are written when non-zero and kept otherwise |
| KeyPadKt.TextsOf | keypad-view/src/main/java/com/maxpilotto/keypadview/KeyPad.kt:225-226 | the list of key texts has one entry per key, in order |
| KeyPadKt.FindAllKeys | keypad-view/src/main/java/com/maxpilotto/keypadview/KeyPad.kt:299-309 | despite the inclusive `0..childCount` loop, the list afterwards is the list before followed by exactly the tree's keys in depth-first order |
| KeyPadKt.ShowSideText | keypad-view/src/main/java/com/maxpilotto/keypadview/KeyPad.kt:113-125 | a given text is written (hideIcon first) and the key shown; without one the key is hidden and keeps its text and pair |
| KeyPadKt.ShowSideIcon | keypad-view/src/main/java/com/maxpilotto/keypadview/KeyPad.kt:127-135 | a non-zero icon is written (hideText first) and the key shown; a zero one changes nothing |
| KeyPadKt.SetSideKey | keypad-view/src/main/java/com/maxpilotto/keypadview/KeyPad.kt:255-270 | an Int becomes the icon (hideText), a String the text (hideIcon), any other value changes nothing; visibility is never touched |
| KeyPadKt.KeyPad.KeyWithTextMeaning | keypad-view/src/main/java/com/maxpilotto/keypadview/KeyPad.kt:224-232 | the key found for a text is in the list, carries that text, and every key before it has another text; nothing is found iff no key carries it |
| KeyPadKt.KeyPad.constructor | keypad-view/src/main/java/com/maxpilotto/keypadview/KeyPad.kt:60-139 | keys are the tree's keys in depth-first order, numbered by index. Without attributes nothing else changes. With attributes, every key gets the uniform margin (0 when absent), background (default `key_background`) and text colour (default 0); tint, wrapper and icon size are written only when non-zero. Each side key is VISIBLE iff it got a text or a non-zero icon, INVISIBLE otherwise |
| KeyPadKt.KeyPad.Initialize | keypad-view/src/main/java/com/maxpilotto/keypadview/KeyPad.kt:66-138 | the constructor's steps after the key collection, with the same outcome and the same frame as the constructor |
| KeyPadKt.KeyPad.NumberKeys | keypad-view/src/main/java/com/maxpilotto/keypadview/KeyPad.kt:66-68 | afterwards `keys[i].position == i` for every i; only positions change |
| KeyPadKt.KeyPad.Configure | keypad-view/src/main/java/com/maxpilotto/keypadview/KeyPad.kt:83-135 | the attribute block: margins, per-key styles and side keys as in the constructor's contract |
| KeyPadKt.KeyPad.StyleAllKeys | keypad-view/src/main/java/com/maxpilotto/keypadview/KeyPad.kt:83-111 | the uniform margin overrides the per-side margins on every key, and every key is styled as the per-key loop does |
| KeyPadKt.KeyPad.StyleKeys | keypad-view/src/main/java/com/maxpilotto/keypadview/KeyPad.kt:92-111 | every key gets the background and text colour; tint, wrapper and icon size are written when non-zero and kept otherwise |
| KeyPadKt.KeyPad.StyleKey | keypad-view/src/main/java/com/maxpilotto/keypadview/KeyPad.kt:93-110 | the loop body for one key: the same, for that key |
| KeyPadKt.KeyPad.SetUpSideKeys | keypad-view/src/main/java/com/maxpilotto/keypadview/KeyPad.kt:113-135 | each side key ends VISIBLE iff it got a text or a non-zero icon, with that text and icon written in that order |
| KeyPadKt.KeyPad.SetMargins | keypad-view/src/main/java/com/maxpilotto/keypadview/KeyPad.kt:144-148 | every key has exactly (l, t, r, b); only margins change |
| KeyPadKt.KeyPad.SetMargin | keypad-view/src/main/java/com/maxpilotto/keypadview/KeyPad.kt:217-219 | every key has (m, m, m, m), the result of `setMargins(m, m, m, m)` |
| KeyPadKt.KeyPad.SetKeysBackground | keypad-view/src/main/java/com/maxpilotto/keypadview/KeyPad.kt:155-159 | every key's background, and both its sub-views', is the resource; nothing else changes |
| KeyPadKt.KeyPad.SetKeysTextColor | keypad-view/src/main/java/com/maxpilotto/keypadview/KeyPad.kt:166-170 | every key has the text colour; nothing else changes |
| KeyPadKt.KeyPad.SetKeysWrapperBackground | keypad-view/src/main/java/com/maxpilotto/keypadview/KeyPad.kt:177-181 | every key has the wrapper background; nothing else changes |
| KeyPadKt.KeyPad.SetIconsTint | keypad-view/src/main/java/com/maxpilotto/keypadview/KeyPad.kt:199-203 | every key has the tint; nothing else changes |
| KeyPadKt.KeyPad.SetIconsSize | keypad-view/src/main/java/com/maxpilotto/keypadview/KeyPad.kt:208-212 | every key has the icon size, and its icon's width and height; nothing else changes |
| KeyPadKt.KeyPad.FindKey | keypad-view/src/main/java/com/maxpilotto/keypadview/KeyPad.kt:224-232 | the first key in list order whose text equals the argument, null when none does |
| KeyPadKt.KeyPad.FindKeyByValue | keypad-view/src/main/java/com/maxpilotto/keypadview/KeyPad.kt:237-239 | exactly the key `findKey(value.toString())` finds |
| KeyPadKt.KeyPad.FoundByValue | keypad-view/src/main/java/com/maxpilotto/keypadview/KeyPad.kt:237-239 | the key found for an Int has a text that reads back as that Int, and two different Ints never find the same key |
| KeyPadKt.KeyPad.KeyAt | keypad-view/src/main/java/com/maxpilotto/keypadview/KeyPad.kt:244-250 | `keys[p]` below the size and null from it on; on a numbered pad that key's position is p |
| KeyPadKt.KeyPad.SetLeftKey | keypad-view/src/main/java/com/maxpilotto/keypadview/KeyPad.kt:265-270 | an Int becomes the left key's icon, a String its text, anything else changes nothing; its visibility is never touched |
| KeyPadKt.KeyPad.SetRightKey | keypad-view/src/main/java/com/maxpilotto/keypadview/KeyPad.kt:255-260 | the same for the right key |

## Left out

- Layout inflation, `findViewById` and `TypedArray` lookups are Android framework calls. The
  inflated layout's initial key state is a constructor parameter (`KeyLayout`). The view tree
  and the side keys are parameters of the pad constructors. XML attributes arrive already
  looked up, as `KeyAttributes` / `PadAttributes` records.
- Dimension attributes: `getDimension(...)` returns a float that the source truncates
  with `(int)` / `toInt()`. The records carry the already truncated whole-pixel values, so
  floating point is not modelled.
- The numeric value of `R.drawable.key_background` is assigned by the Android build. The model
  fixes it as a non-zero constant (`Views.KeyBackground`).
- Text sizes (`setTextSize`, `setKeysTextSize`, `keysTextSize`, `keyTextSize`, the 20sp
  defaults) are floats with unit conversion and are not modelled. The same goes for the
  `PorterDuff` mode of the tint, which is graphics plumbing; the tint colour itself is kept.
- Click and long-click listener wiring (`setOnClickListener`, `setOnLongClickListener`,
  `onClick`, `onLongClick`) is event dispatch through foreign callbacks.
- `fixWidth` is display measurement through a global-layout observer, and the source marks it
  as not working.
- The demo application `MainActivity.java` is not part of this model.
- The Java `KeyPad(Context)` constructor and a `KeyPad.java` built with null attributes leave
  `keys`, `left` and `right` null, so every later call that touches `keys`, `left` or `right`
  fails; `getLeftKey`, `getRightKey` and the static `findAllKeys` still work. Only the
  attribute-taking constructor is modelled.
- `getLeftKey`, `getRightKey` (Java) and `leftKey`, `rightKey` (Kotlin) only return a field. The
  model reads the `left` and `right` fields directly. `getTextView`, `getImageView` and
  `getIconView` expose Android views and are not modelled.
- `findAllKeys` appends to a caller's mutable list. The model passes the list in and returns
  the new one, so aliasing of that list is not modelled. The pad constructors start it empty,
  as the source does.
- `KeyPadJava.KeyPad.constructor`, `KeyPadKt.KeyPad.constructor`: both require the view tree's
  keys to be pairwise distinct and the two side keys to be different. An Android view has
  one parent and the two side keys have different ids. Their `allocated` precondition only states
  that the tree's keys exist before the call, which holds for every caller.
- Every key's parent is taken to be a `ConstraintLayout`. The margin setters cast each key's
  layout params to `ConstraintLayout.LayoutParams` (`KeyPad.java` line 252, `KeyPad.kt`
  line 146), and both pad constructors call them. For a key inside any other kind of group
  that cast throws `ClassCastException`, and construction throws with it. The model's view tree
  lets keys sit in any group, and this failure is not modelled.
- `KeyKt.Key.constructor`: requires a `keyValue` attribute whenever attributes are given.
  `Key.kt` assigns `array.getString(...)`, which may be null, to the non-null `text`
  property, which throws; that error path is not modelled.
- `KeyPadJava.KeyPad.GetKeyAt`, `KeyPadKt.KeyPad.KeyAt`: a negative position makes the list
  throw, so such positions are excluded by the precondition rather than modelled as an error.
- For `Key.kt`, the text, colour, icon image and tint that the setters also push into the
  `TextView`/`ImageView` are represented by the backing fields. The view-side copies of the
  two backgrounds, the icon size and the visibilities are separate fields.
