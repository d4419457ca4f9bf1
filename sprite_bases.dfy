/** sprite_bases.py: the sprite base classes' bookkeeping. Which default
    groups a sprite joins, the checks that a size and a position were
    given, and how setting the position drags the rect along. */
module SpriteBases {
  import opened Util
  import opened Geometry

  /** The game's groups a sprite can join by default. */
  datatype Group = RootGroup | DisplayGroup

  /** Python truthiness of a flag that may be None. */
  predicate Truthy(flag: Option<bool>)
  {
    flag == Some(true)
  }

  /** SizedSprite.get_virtual_rect: the rect a sprite of this class would
      have at `pos`, sized by the argument or else by the class; TypeError
      when neither gives a size. */
  function GetVirtualRect(classSize: Option<Vec2>, pos: Vec2, size: Option<Vec2>): (r: Result<Rect>)
    ensures r.Err? <==> size.None? && classSize.None?
    ensures r.Err? ==> r.error == TypeError
    ensures r.Ok? ==> r.value.Center() == pos
    ensures r.Ok? && size.Some? ==> r.value.width == size.value.x && r.value.height == size.value.y
    ensures r.Ok? && size.None? ==> r.value.width == classSize.value.x && r.value.height == classSize.value.y
  {
    var s := if size.None? then classSize else size;
    if s.None? then Err(TypeError) else Ok(RectAround(s.value, pos))
  }

  /** A sprite, with the attributes the base classes manage. Flags, size and
      position start as the class attributes (Python looks them up on the
      class until the instance sets its own). */
  class Sprite {
    var inRoot: Option<bool>
    var inDisplay: Option<bool>
    var size: Option<Vec2>
    var pos: Option<Vec2>
    var rect: Option<Rect>

    /** `cls.__new__(cls)`: an instance that still reads every attribute
        from its class. */
    constructor (classInRoot: Option<bool>, classInDisplay: Option<bool>,
                 classSize: Option<Vec2>, classPos: Option<Vec2>)
      ensures inRoot == classInRoot && inDisplay == classInDisplay
      ensures size == classSize && pos == classPos && rect == None
    {
      inRoot := classInRoot;
      inDisplay := classInDisplay;
      size := classSize;
      pos := classPos;
      rect := None;
    }

    /** GroupMemberSprite._set_group_flags: a given flag overrides the class
        attribute, None keeps it; a display flag still None follows the root
        flag. */
    method SetGroupFlags(inRootArg: Option<bool>, inDisplayArg: Option<bool>)
      modifies this`inRoot, this`inDisplay
      ensures inRoot == OptionOr(inRootArg, old(inRoot))
      ensures OptionOr(inDisplayArg, old(inDisplay)).Some? ==> inDisplay == OptionOr(inDisplayArg, old(inDisplay))
      ensures OptionOr(inDisplayArg, old(inDisplay)).None? ==> inDisplay == inRoot
    {
      inRoot := OptionOr(inRootArg, inRoot);
      inDisplay := OptionOr(inDisplayArg, inDisplay);
      if inDisplay.None? {
        inDisplay := inRoot;
      }
    }

    /** GroupMemberSprite._get_extra_groups: the root group when in_root is
        truthy, then the display group when in_display is. */
    method GetExtraGroups() returns (extra: seq<Group>)
      ensures RootGroup in extra <==> Truthy(inRoot)
      ensures DisplayGroup in extra <==> Truthy(inDisplay)
      ensures |extra| <= 2 && (|extra| == 2 ==> extra == [RootGroup, DisplayGroup])
      ensures extra == [] <==> !Truthy(inRoot) && !Truthy(inDisplay)
    {
      extra := [];
      if Truthy(inRoot) {
        extra := extra + [RootGroup];
      }
      if Truthy(inDisplay) {
        extra := extra + [DisplayGroup];
      }
    }

    /** The size check of SizedSprite.__init__: TypeError when neither the
        argument nor the class gives a size. */
    method InitSize(sizeArg: Option<Vec2>) returns (out: Outcome)
      modifies this`size
      ensures size == OptionOr(sizeArg, old(size))
      ensures out == Fail(TypeError) <==> sizeArg.None? && old(size).None?
      ensures out == Pass || out == Fail(TypeError)
    {
      size := OptionOr(sizeArg, size);
      if size.None? {
        return Fail(TypeError);
      }
      return Pass;
    }

    /** The position check of PositionedSprite.__init__: TypeError when
        neither the argument nor the class gives a position. */
    method InitPos(posArg: Option<Vec2>) returns (out: Outcome)
      modifies this`pos
      ensures pos == OptionOr(posArg, old(pos))
      ensures out == Fail(TypeError) <==> posArg.None? && old(pos).None?
      ensures out == Pass || out == Fail(TypeError)
    {
      pos := OptionOr(posArg, pos);
      if pos.None? {
        return Fail(TypeError);
      }
      return Pass;
    }

    /** RectUpdatingSprite.set_pos: always stores the position; recentres
        the rect only once there is one. */
    method SetPos(value: Vec2)
      modifies this`pos, this`rect
      ensures pos == Some(value)
      ensures old(rect).None? ==> rect == None
      ensures old(rect).Some? ==> (rect.Some? && rect.value.Center() == value
        && rect.value.width == old(rect).value.width && rect.value.height == old(rect).value.height)
    {
      pos := Some(value);
      if rect.Some? {
        rect := Some(rect.value.WithCenter(value));
      }
    }
  }

  /** The group-flag defaults: a plain GroupMemberSprite (class in_root =
      True, in_display = None) given no flags joins both groups, root first;
      given in_root = False and no display flag it joins neither. */
  method GroupFlagDefaults() returns (both: seq<Group>, neither: seq<Group>)
    ensures both == [RootGroup, DisplayGroup]
    ensures neither == []
  {
    var s := new Sprite(Some(true), None, None, None);
    s.SetGroupFlags(None, None);
    both := s.GetExtraGroups();
    var t := new Sprite(Some(true), None, None, None);
    t.SetGroupFlags(Some(false), None);
    neither := t.GetExtraGroups();
  }

  /** A subclass whose class attributes set the flags keeps them when no
      flags are passed. */
  method GroupFlagsFromClass(classInRoot: bool, classInDisplay: bool) returns (inRoot: Option<bool>, inDisplay: Option<bool>)
    ensures inRoot == Some(classInRoot) && inDisplay == Some(classInDisplay)
  {
    var s := new Sprite(Some(classInRoot), Some(classInDisplay), None, None);
    s.SetGroupFlags(None, None);
    inRoot, inDisplay := s.inRoot, s.inDisplay;
  }
}
