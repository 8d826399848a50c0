/**
 * The two remote paths the page works with: the path shared with the user
 * and the path the share is then renamed at. Both are built from the
 * course-module id and, in group mode, the user's group.
 */
module Paths {

  import opened Decimal

  /**
   * The group whose subfolder is shared: the user's activity group when the
   * activity runs in a group mode (any mode other than 0), else 0. The
   * value 0 also stands for "no group", which is what the group lookup
   * answers for a user outside the activity's groups.
   */
  function EffectiveGroup(groupMode: nat, activityGroup: nat): nat {
    if groupMode != 0 then activityGroup else 0
  }

  /** The remote path shared with the user. */
  function SharePath(id: nat, group: nat): string {
    if group == 0 then "/" + NatToString(id) else "/" + NatToString(id) + "/" + NatToString(group)
  }

  /** The remote path the new share is renamed at. */
  function FinalPath(id: nat, group: nat): string {
    if group == 0 then "/" + NatToString(id) else "/" + NatToString(group)
  }

  /**
   * The path set-up of the page: group mode on or off, the user's group,
   * and the two paths, each variable assigned and extended as the page does.
   */
  method ResolvePaths(id: nat, groupMode: nat, activityGroup: nat)
    returns (gm: bool, ingroup: nat, sharePath: string, finalPath: string)
    ensures gm <==> groupMode != 0
    ensures ingroup == EffectiveGroup(groupMode, activityGroup)
    ensures !gm || ingroup == 0 ==> sharePath == finalPath == "/" + NatToString(id)
    ensures gm && ingroup != 0 ==>
              sharePath == "/" + NatToString(id) + "/" + NatToString(ingroup) &&
              finalPath == "/" + NatToString(ingroup)
    ensures sharePath == SharePath(id, ingroup) && finalPath == FinalPath(id, ingroup)
  {
    gm := false;
    sharePath := "/" + NatToString(id);
    finalPath := sharePath;
    ingroup := 0;
    if groupMode != 0 {
      gm := true;
      ingroup := activityGroup;
      if ingroup != 0 {
        sharePath := sharePath + "/" + NatToString(ingroup);
        finalPath := "/" + NatToString(ingroup);
      }
    }
  }

  /** Where the slash of `p + "/" + r` sits and what lies on either side. */
  lemma SlashAt(p: string, r: string)
    ensures |p + "/" + r| == |p| + 1 + |r|
    ensures (p + "/" + r)[|p|] == '/'
    ensures (p + "/" + r)[..|p|] == p && (p + "/" + r)[|p| + 1..] == r
  {
  }

  /** Two digit strings followed by a slash can only be split one way. */
  lemma DigitsBeforeSlash(p: string, r: string, q: string, t: string)
    requires AllDigits(p) && AllDigits(q)
    requires p + "/" + r == q + "/" + t
    ensures p == q && r == t
  {
    SlashAt(p, r);
    SlashAt(q, t);
    assert |p| == |q|;
  }

  /** A rooted digit string is never a rooted path of two components. */
  lemma OneComponentIsNotTwo(s: string, p: string, r: string)
    requires AllDigits(s)
    ensures "/" + s != "/" + p + "/" + r
  {
    SlashAt("/" + p, r);
  }

  /** Rooted paths of one component, or of two digit components, determine their components. */
  lemma RootedComponents(p: string, r: string, q: string, t: string)
    requires AllDigits(p) && AllDigits(q)
    ensures "/" + p == "/" + q ==> p == q
    ensures "/" + p + "/" + r == "/" + q + "/" + t ==> p == q && r == t
  {
    if "/" + p == "/" + q {
      assert p == ("/" + p)[1..];
      assert q == ("/" + q)[1..];
    }
    if "/" + p + "/" + r == "/" + q + "/" + t {
      assert p + "/" + r == ("/" + p + "/" + r)[1..];
      assert q + "/" + t == ("/" + q + "/" + t)[1..];
      DigitsBeforeSlash(p, r, q, t);
    }
  }

  /**
   * Distinct (course module, group) pairs are shared at distinct paths: a
   * user is never handed the folder of another group or of the whole
   * activity when a group folder is meant.
   */
  lemma {:induction false} SharePathInjective(a: nat, g: nat, b: nat, h: nat)
    ensures SharePath(a, g) == SharePath(b, h) ==> a == b && g == h
  {
    var sa, sb, sg, sh := NatToString(a), NatToString(b), NatToString(g), NatToString(h);
    RootedComponents(sa, sg, sb, sh);
    NatToStringInjective(a, b);
    NatToStringInjective(g, h);
    if g == 0 && h != 0 {
      OneComponentIsNotTwo(sa, sb, sh);
    } else if g != 0 && h == 0 {
      OneComponentIsNotTwo(sb, sa, sg);
    }
  }

  /**
   * In a group the rename target is the group subfolder, which is the tail
   * of the share path below the course-module folder; outside a group
   * both paths are the course-module folder.
   */
  lemma FinalPathIsTail(id: nat, group: nat)
    ensures group != 0 ==> SharePath(id, group) == "/" + NatToString(id) + FinalPath(id, group)
    ensures group == 0 ==> SharePath(id, group) == FinalPath(id, group)
  {
  }
}
