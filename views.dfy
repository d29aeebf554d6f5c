/** The pieces of the Android view system the keypad works with, reduced to values: visibilities,
    the text/icon pair of a key, layout margins, view trees, and the already-parsed XML attributes. */
module Views {
  import opened Wrappers

  /** `View.VISIBLE`, `View.INVISIBLE` and `View.GONE`. */
  datatype Visibility = Visible | Invisible | Gone

  /** The visibilities of a key's text sub-view and icon sub-view. */
  datatype Shown = Shown(text: Visibility, icon: Visibility)

  const TextOnly := Shown(Visible, Gone)
  const IconOnly := Shown(Gone, Visible)

  /** The two states between which a key switches: exactly one sub-view shown, the other gone. */
  predicate Exclusive(s: Shown) {
    s == TextOnly || s == IconOnly
  }

  /** The effect of `hideIcon` on the pair: from an exclusive state the text ends up shown; from any
      other state nothing changes. */
  function HideIcon(s: Shown): (r: Shown)
    ensures Exclusive(s) ==> r == TextOnly
    ensures !Exclusive(s) ==> r == s
  {
    if s.text == Gone && s.icon == Visible then Shown(Visible, Gone) else s
  }

  /** The effect of `hideText` on the pair: from an exclusive state the icon ends up shown; from any
      other state nothing changes. */
  function HideText(s: Shown): (r: Shown)
    ensures Exclusive(s) ==> r == IconOnly
    ensures !Exclusive(s) ==> r == s
  {
    if s.text == Visible && s.icon == Gone then Shown(Gone, Visible) else s
  }

  lemma HideIconIdempotent(s: Shown)
    ensures HideIcon(HideIcon(s)) == HideIcon(s)
  {}

  lemma HideTextIdempotent(s: Shown)
    ensures HideText(HideText(s)) == HideText(s)
  {}

  /** Both toggles keep a key in one of its two exclusive states, and every state a toggle
      changes is exclusive. */
  lemma TogglesPreserveExclusive(s: Shown)
    ensures Exclusive(s) <==> Exclusive(HideIcon(s))
    ensures Exclusive(s) <==> Exclusive(HideText(s))
    ensures HideIcon(s) != s ==> s == IconOnly
    ensures HideText(s) != s ==> s == TextOnly
  {}

  /** hideText undoes hideIcon and the other way round, on the state each one changes. */
  lemma TogglesUndoEachOther(s: Shown)
    ensures s == IconOnly ==> HideText(HideIcon(s)) == s
    ensures s == TextOnly ==> HideIcon(HideText(s)) == s
  {}

  /** The layout margins of a view inside its parent: left, top, right, bottom. */
  datatype Margins = Margins(left: int, top: int, right: int, bottom: int)

  /** The same margin on all four sides. */
  function Uniform(m: int): Margins
  {
    Margins(m, m, m, m)
  }

  /** A view tree: a Key (a leaf for the search, although a Key is itself a layout), a view group
      with its children in order, or any other view. */
  datatype View<K> = KeyView(key: K) | Group(children: seq<View<K>>) | Other

  /** The keys of a tree in depth-first order, not looking inside a key. */
  function Flatten<K>(v: View<K>): seq<K>
    decreases v
  {
    match v
    case KeyView(k) => [k]
    case Group(cs) => FlattenAll(cs)
    case Other => []
  }

  /** The keys of a list of sibling trees, first sibling first. */
  function FlattenAll<K>(vs: seq<View<K>>): seq<K>
    decreases vs
  {
    if vs == [] then [] else FlattenAll(vs[..|vs| - 1]) + Flatten(vs[|vs| - 1])
  }

  /** k is reachable from v through view groups only. */
  ghost predicate Reaches<K>(v: View<K>, k: K)
    decreases v
  {
    match v
    case KeyView(k') => k' == k
    case Group(cs) => exists i :: 0 <= i < |cs| && Reaches(cs[i], k)
    case Other => false
  }

  /** The keys listed by Flatten are exactly the keys reachable through groups. */
  lemma {:induction false} FlattenReaches<K>(v: View<K>, k: K)
    ensures k in Flatten(v) <==> Reaches(v, k)
    decreases v
  {
    match v
    case KeyView(_) =>
    case Group(cs) => FlattenAllReaches(cs, k);
    case Other =>
  }

  lemma {:induction false} FlattenAllReaches<K>(vs: seq<View<K>>, k: K)
    ensures k in FlattenAll(vs) <==> exists i :: 0 <= i < |vs| && Reaches(vs[i], k)
    decreases vs
  {
    if vs != [] {
      var n := |vs| - 1;
      FlattenAllReaches(vs[..n], k);
      FlattenReaches(vs[n], k);
      if k in FlattenAll(vs[..n]) {
        var i :| 0 <= i < n && Reaches(vs[..n][i], k);
        assert Reaches(vs[i], k);
      }
      if exists i :: 0 <= i < |vs| && Reaches(vs[i], k) {
        var i :| 0 <= i < |vs| && Reaches(vs[i], k);
        if i < n {
          assert Reaches(vs[..n][i], k);
        }
      }
    }
  }

  /** Appending one more sibling appends its keys. */
  lemma FlattenAllSnoc<K>(vs: seq<View<K>>, i: nat)
    requires i < |vs|
    ensures FlattenAll(vs[..i + 1]) == FlattenAll(vs[..i]) + Flatten(vs[i])
  {
    assert vs[..i + 1][..i] == vs[..i];
  }

  /** `ViewGroup.getChildAt`: the child at index i, or null when i is out of range. */
  function ChildAt<K>(vs: seq<View<K>>, i: int): Option<View<K>> {
    if 0 <= i < |vs| then Some(vs[i]) else None
  }

  /** No key appears twice: a view has at most one parent, so the keys of one tree are distinct. */
  predicate Distinct<K(==)>(s: seq<K>) {
    s == [] || (s[0] !in s[1..] && Distinct(s[1..]))
  }

  /** Distinct, stated on positions: two different indices hold different elements. */
  lemma {:induction false} DistinctElements<K>(s: seq<K>)
    requires Distinct(s)
    ensures forall i, j :: 0 <= i < j < |s| ==> s[i] != s[j]
  {
    if s != [] {
      DistinctElements(s[1..]);
      forall i, j | 0 <= i < j < |s|
        ensures s[i] != s[j]
      {
        if i == 0 {
          assert s[j] == s[1..][j - 1];
        } else {
          assert s[i] == s[1..][i - 1] && s[j] == s[1..][j - 1];
        }
      }
    }
  }

  /** The resource identifier that `R.drawable.key_background` (the default grey circle) receives
      from the build; the model only needs it to be a real, non-zero resource. */
  const KeyBackground: int := 0x7f08_0000

  /** `android.R.color.darker_gray`, #ffaaaaaa, as a signed 32-bit colour. */
  const DarkerGray: int := -5592406

  /** The state `R.layout.key` gives a freshly inflated key, and the layout margins its parent
      gives it. */
  datatype KeyLayout = KeyLayout(
    text: string, textColor: int, textBackground: int, textVisibility: Visibility,
    iconImage: int, iconTint: int, iconBackground: int, iconWidth: int, iconHeight: int,
    iconVisibility: Visibility, wrapperBackground: int, visibility: Visibility, margins: Margins)

  /** The `Key` XML attributes, already looked up; None is an attribute that is not set. */
  datatype KeyAttributes = KeyAttributes(
    value: Option<string>, textColor: Option<int>, background: Option<int>, icon: Option<int>,
    iconSize: Option<int>, tint: Option<int>, wrapper: Option<int>)

  /** The `KeyPad` XML attributes, already looked up (dimensions already converted to whole
      pixels); None is an attribute that is not set. */
  datatype PadAttributes = PadAttributes(
    leftText: Option<string>, rightText: Option<string>, leftIcon: Option<int>, rightIcon: Option<int>,
    marginLeft: Option<int>, marginTop: Option<int>, marginRight: Option<int>, marginBottom: Option<int>,
    margin: Option<int>, keysBackground: Option<int>, keysTextColor: Option<int>,
    keysWrapperBackground: Option<int>, keysIconTint: Option<int>, keysIconSize: Option<int>)
}
