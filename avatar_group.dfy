/** The avatar group: a list of avatars that the group state edits in place,
    and the counts the group view derives from it (how many avatars are
    shown, how many are folded into the overflow avatar, and which shown
    avatars are clipped by a cutout).

    Swift's `Int` is 64 bits wide and traps on overflow; the view's
    arithmetic is modelled with unbounded integers and an explicit range
    test, and a computation that would trap yields `None`. */
module AvatarGroupModel {
  import opened Tokens

  const IntMax: int := 0x7FFF_FFFF_FFFF_FFFF
  const IntMin: int := -0x8000_0000_0000_0000

  /** A value that fits in Swift's 64-bit `Int`. */
  predicate IsInt(x: int) {
    IntMin <= x <= IntMax
  }

  /** `MSFAvatarGroupStyle`: overlapping avatars, or avatars side by side. */
  datatype AvatarGroupStyle = stack | pile

  // ---------------------------------------------------------------------------
  // The list operations, on values
  // ---------------------------------------------------------------------------

  /** `s` with `x` inserted before position `i`. */
  function InsertAt<T>(s: seq<T>, i: int, x: T): (r: seq<T>)
    requires 0 <= i <= |s|
    ensures |r| == |s| + 1 && r[i] == x
    ensures forall j | 0 <= j < i :: r[j] == s[j]
    ensures forall j | i < j < |r| :: r[j] == s[j - 1]
    ensures multiset(r) == multiset(s) + multiset{x}
  {
    assert s == s[..i] + s[i..];
    s[..i] + [x] + s[i..]
  }

  /** `s` without its element at position `i`. */
  function RemoveAt<T>(s: seq<T>, i: int): (r: seq<T>)
    requires 0 <= i < |s|
    ensures |r| == |s| - 1
    ensures forall j | 0 <= j < i :: r[j] == s[j]
    ensures forall j | i <= j < |r| :: r[j] == s[j + 1]
    ensures multiset(r) + multiset{s[i]} == multiset(s)
  {
    assert s == s[..i] + [s[i]] + s[i + 1..];
    s[..i] + s[i + 1..]
  }

  /** Removing what was just inserted gives back the list. */
  lemma RemoveUndoesInsert<T>(s: seq<T>, i: int, x: T)
    requires 0 <= i <= |s|
    ensures RemoveAt(InsertAt(s, i, x), i) == s
  {
    var r := RemoveAt(InsertAt(s, i, x), i);
    assert |r| == |s|;
    forall j | 0 <= j < |s|
      ensures r[j] == s[j]
    {
      if j >= i {
        assert r[j] == InsertAt(s, i, x)[j + 1];
      }
    }
  }

  /** Inserting back what was just removed gives back the list. */
  lemma InsertUndoesRemove<T>(s: seq<T>, i: int)
    requires 0 <= i < |s|
    ensures InsertAt(RemoveAt(s, i), i, s[i]) == s
  {
    var r := InsertAt(RemoveAt(s, i), i, s[i]);
    assert |r| == |s|;
    forall j | 0 <= j < |s|
      ensures r[j] == s[j]
    {
      if j > i {
        assert r[j] == RemoveAt(s, i)[j - 1];
      }
    }
  }

  /** A list in which no avatar appears twice. */
  predicate NoDuplicates<T(==)>(s: seq<T>) {
    forall i, j | 0 <= i < j < |s| :: s[i] != s[j]
  }

  /** Removing an element keeps a list free of duplicates. */
  lemma RemoveKeepsNoDuplicates<T>(s: seq<T>, i: int)
    requires 0 <= i < |s| && NoDuplicates(s)
    ensures NoDuplicates(RemoveAt(s, i))
  {
    var r := RemoveAt(s, i);
    forall a, b | 0 <= a < b < |r|
      ensures r[a] != r[b]
    {
      var a' := if a < i then a else a + 1;
      var b' := if b < i then b else b + 1;
      assert r[a] == s[a'] && r[b] == s[b'] && a' < b';
    }
  }

  /** Inserting an element not yet in a list keeps it free of duplicates. */
  lemma InsertKeepsNoDuplicates<T>(s: seq<T>, i: int, x: T)
    requires 0 <= i <= |s| && NoDuplicates(s) && x !in s
    ensures NoDuplicates(InsertAt(s, i, x))
  {
    var r := InsertAt(s, i, x);
    forall a, b | 0 <= a < b < |r|
      ensures r[a] != r[b]
    {
      if a == i {
        assert r[b] == s[b - 1];
      } else if b == i {
        assert r[a] == s[a];
      } else {
        var a' := if a < i then a else a - 1;
        var b' := if b < i then b else b - 1;
        assert r[a] == s[a'] && r[b] == s[b'] && a' < b';
      }
    }
  }

  // ---------------------------------------------------------------------------
  // The group state (`MSFAvatarGroupStateImpl`)
  // ---------------------------------------------------------------------------

  /** `MSFAvatarGroupAvatarStateImpl`: one avatar of the group.  Its payload
      (text, image, colours) is not modelled; only its identity and the size
      it was created with. */
  class GroupAvatar<Size> {
    const size: Size

    constructor(size: Size)
      ensures this.size == size
    {
      this.size := size;
    }
  }

  /** The state behind an avatar group: the ordered avatars, the display cap,
      the extra overflow, and the style and size. */
  class AvatarGroupState<Size> {
    var avatars: seq<GroupAvatar<Size>>
    var maxDisplayedAvatars: int
    var overflowCount: int
    var style: AvatarGroupStyle
    var size: Size

    /** Every avatar is its own object, listed once. */
    ghost predicate Valid()
      reads this`avatars
    {
      NoDuplicates(avatars)
    }

    /** A new group is empty, shows up to `Int.max` avatars and adds no
        overflow of its own. */
    constructor(style: AvatarGroupStyle, size: Size)
      ensures avatars == [] && maxDisplayedAvatars == IntMax && overflowCount == 0
      ensures this.style == style && this.size == size
      ensures Valid()
    {
      avatars := [];
      maxDisplayedAvatars := IntMax;
      overflowCount := 0;
      this.style := style;
      this.size := size;
    }

    /** `createAvatar(at:)`: a new avatar of the group's size, inserted before
        position `index`.  An index outside `0...count` is a precondition
        failure. */
    method CreateAvatarAt(index: int) returns (avatar: GroupAvatar<Size>)
      requires 0 <= index <= |avatars|
      requires Valid()
      modifies this`avatars
      ensures fresh(avatar) && avatar.size == size
      ensures avatars == InsertAt(old(avatars), index, avatar)
      ensures Valid()
    {
      avatar := new GroupAvatar(size);
      InsertKeepsNoDuplicates(avatars, index, avatar);
      avatars := InsertAt(avatars, index, avatar);
    }

    /** `createAvatar()`: a new avatar appended after the last one. */
    method CreateAvatar() returns (avatar: GroupAvatar<Size>)
      requires Valid()
      modifies this`avatars
      ensures fresh(avatar) && avatar.size == size
      ensures avatars == old(avatars) + [avatar]
      ensures Valid()
    {
      avatar := CreateAvatarAt(|avatars|);
      assert avatars == old(avatars) + [avatar];
    }

    /** `getAvatarState(at:)`: the avatar at a valid position; nothing changes. */
    method GetAvatarState(index: int) returns (avatar: GroupAvatar<Size>)
      requires 0 <= index < |avatars|
      ensures avatar == avatars[index] && avatar in avatars
    {
      avatar := avatars[index];
    }

    /** `removeAvatar(at:)`: drops the avatar at a valid position, keeping the
        others in order. */
    method RemoveAvatar(index: int)
      requires 0 <= index < |avatars|
      requires Valid()
      modifies this`avatars
      ensures avatars == RemoveAt(old(avatars), index)
      ensures old(avatars[index]) !in avatars
      ensures Valid()
    {
      RemoveKeepsNoDuplicates(avatars, index);
      ghost var removed := avatars[index];
      avatars := RemoveAt(avatars, index);
      assert removed !in avatars by {
        forall j | 0 <= j < |avatars|
          ensures avatars[j] != removed
        {
          assert avatars[j] == old(avatars)[if j < index then j else j + 1];
        }
      }
    }

    /** What the group view shows for this state. */
    function Layout(): (r: Option<Display>)
      reads this
      requires |avatars| <= IntMax && IsInt(maxDisplayedAvatars) && IsInt(overflowCount)
      ensures r.Some? ==> r.value.avatarsToDisplay <= |avatars|
    {
      GroupDisplay(|avatars|, maxDisplayedAvatars, overflowCount)
    }
  }

  /** A fresh group followed by `createAvatar()` shows its one avatar and no
      overflow. */
  method FirstAvatarIsShown<Size>(style: AvatarGroupStyle, size: Size) returns (group: AvatarGroupState<Size>)
    ensures fresh(group) && |group.avatars| == 1
    ensures group.maxDisplayedAvatars == IntMax && group.overflowCount == 0
    ensures group.Layout() == Some(Display(1, 0, false))
  {
    group := new AvatarGroupState(style, size);
    var avatar := group.CreateAvatar();
    DefaultCapShowsEveryAvatar(1);
  }

  // ---------------------------------------------------------------------------
  // What the group view shows (`AvatarGroup.body`)
  // ---------------------------------------------------------------------------

  /** The shown count, the overflow avatar's number, and whether the overflow
      avatar is shown. */
  datatype Display = Display(avatarsToDisplay: int, overflow: int, hasOverflow: bool)

  /** Avatars beyond the display cap. */
  function Hidden(count: int, maxDisplayed: int): int {
    if count > maxDisplayed then count - maxDisplayed else 0
  }

  /** The counts the view derives from `count` avatars, a cap of
      `maxDisplayed` and an extra overflow of `extraOverflow`; `None` where
      the view would trap: a negative cap makes the prefix of the avatar list
      negative, and the overflow sum may leave the `Int` range. */
  function GroupDisplay(count: int, maxDisplayed: int, extraOverflow: int): (r: Option<Display>)
    requires 0 <= count <= IntMax && IsInt(maxDisplayed) && IsInt(extraOverflow)
    ensures r.Some? <==> 0 <= maxDisplayed && extraOverflow <= IntMax - Hidden(count, maxDisplayed)
    ensures r.Some? ==> 0 <= r.value.avatarsToDisplay <= maxDisplayed && r.value.avatarsToDisplay <= count
    ensures r.Some? ==> r.value.avatarsToDisplay == count || r.value.avatarsToDisplay == maxDisplayed
    ensures r.Some? ==> r.value.avatarsToDisplay + (r.value.overflow - extraOverflow) == count
    ensures r.Some? ==> (r.value.hasOverflow <==> r.value.overflow > 0)
  {
    var shown := if maxDisplayed < count then maxDisplayed else count;
    var hidden := Hidden(count, maxDisplayed);
    if !IsInt(hidden) || !IsInt(hidden + extraOverflow) then None
    else if shown < 0 then None
    else Some(Display(shown, hidden + extraOverflow, hidden + extraOverflow > 0))
  }

  /** With the default cap and no extra overflow, every avatar is shown and
      there is no overflow avatar. */
  lemma DefaultCapShowsEveryAvatar(count: int)
    requires 0 <= count <= IntMax
    ensures GroupDisplay(count, IntMax, 0) == Some(Display(count, 0, false))
  {
  }

  /** Below the cap every avatar is shown; at or above it exactly the cap is
      shown and the rest are counted in the overflow. */
  lemma CapSplitsAvatars(count: int, maxDisplayed: int, extraOverflow: int)
    requires 0 <= count <= IntMax && 0 <= maxDisplayed <= IntMax && 0 <= extraOverflow <= IntMax - count
    ensures GroupDisplay(count, maxDisplayed, extraOverflow).Some?
    ensures count <= maxDisplayed ==>
      GroupDisplay(count, maxDisplayed, extraOverflow) == Some(Display(count, extraOverflow, extraOverflow > 0))
    ensures count > maxDisplayed ==>
      GroupDisplay(count, maxDisplayed, extraOverflow) == Some(Display(maxDisplayed, count - maxDisplayed + extraOverflow, true))
  {
  }

  /** `needsCutout` for the avatar at `index` among `shown` displayed ones. */
  predicate NeedsCutout(style: AvatarGroupStyle, hasOverflow: bool, index: int, shown: int) {
    style == stack && (hasOverflow || index + 1 != shown)
  }

  /** The cutout decision for each displayed avatar, in order. */
  function CutoutPlan(d: Display, style: AvatarGroupStyle): (r: seq<bool>)
    requires d.avatarsToDisplay >= 0
    ensures |r| == d.avatarsToDisplay
    ensures style == pile ==> forall i | 0 <= i < |r| :: !r[i]
    ensures style == stack ==> forall i | 0 <= i < |r| - 1 :: r[i]
    ensures style == stack && |r| > 0 ==> (r[|r| - 1] <==> d.hasOverflow)
  {
    seq(d.avatarsToDisplay, i => NeedsCutout(style, d.hasOverflow, i, d.avatarsToDisplay))
  }
}
