/**
 * A skeleton as a flat, parent-indexed array of bones, and the world
 * transform of each bone: its local transform composed onto its parent's
 * world transform, or, for a root, onto the root frame.
 */
module Hierarchy {
  import opened Transforms

  /** A bone: its transform relative to its parent, and its parent's index (-1 for a root). */
  datatype Bone = Bone(local: Transform, pindex: int)

  /** A live pose: the current bones, and the transform that places the skeleton's roots. */
  datatype Pose = Pose(bones: seq<Bone>, offset: Transform)

  /**
   * How a root bone's world transform is formed: at construction it is a copy
   * of the local transform, during a pose update the pose's offset stands in
   * for a parent.
   */
  datatype RootRule = CopyLocal | ComposeOffset(offset: Transform)

  /**
   * Every bone is a root or names a parent stored before it, so one pass in
   * index order sees each parent's world transform before its children need it.
   */
  predicate ParentsOrdered(bones: seq<Bone>) {
    forall i :: 0 <= i < |bones| ==> bones[i].pindex == -1 || 0 <= bones[i].pindex < i
  }

  function RootWorld(ops: TransformOps, rule: RootRule, local: Transform): Transform {
    match rule
    case CopyLocal => local
    case ComposeOffset(offset) => ops.mul(offset, local)
  }

  /** The world transform of bone `i`, following its parent link. */
  function BoneWorld(ops: TransformOps, bones: seq<Bone>, rule: RootRule, i: nat): Transform
    requires ParentsOrdered(bones) && i < |bones|
    decreases i
  {
    if bones[i].pindex != -1 then
      ops.mul(BoneWorld(ops, bones, rule, bones[i].pindex), bones[i].local)
    else
      RootWorld(ops, rule, bones[i].local)
  }

  /** The world transforms of all bones, by index. */
  function Worlds(ops: TransformOps, bones: seq<Bone>, rule: RootRule): seq<Transform>
    requires ParentsOrdered(bones)
  {
    seq(|bones|, i requires 0 <= i < |bones| => BoneWorld(ops, bones, rule, i))
  }

  /**
   * The chain of bone indices from a root down to bone `i`: it starts at a
   * root, ends at `i`, every step goes from a parent to its child, and the
   * indices strictly increase along it.
   */
  function Ancestry(bones: seq<Bone>, i: nat): (path: seq<nat>)
    requires ParentsOrdered(bones) && i < |bones|
    ensures |path| >= 1 && path[|path| - 1] == i
    ensures path[0] < |bones| && bones[path[0]].pindex == -1
    ensures forall k :: 0 <= k < |path| ==> path[k] <= i
    ensures forall k :: 0 < k < |path| ==> path[k - 1] < path[k] && bones[path[k]].pindex == path[k - 1]
    decreases i
  {
    if bones[i].pindex == -1 then [i] else Ancestry(bones, bones[i].pindex) + [i]
  }

  /**
   * The composition of the local transforms along a root-to-bone path: the
   * root rule applied to the first bone, then each following bone's local
   * transform composed on the right.
   */
  function ComposePath(ops: TransformOps, bones: seq<Bone>, rule: RootRule, path: seq<nat>): Transform
    requires |path| >= 1 && forall k :: 0 <= k < |path| ==> path[k] < |bones|
    decreases |path|
  {
    if |path| == 1 then RootWorld(ops, rule, bones[path[0]].local)
    else ops.mul(ComposePath(ops, bones, rule, path[..|path| - 1]), bones[path[|path| - 1]].local)
  }

  /** A bone's world transform is the composition of the local transforms along its ancestry. */
  lemma {:induction false} WorldAlongAncestry(ops: TransformOps, bones: seq<Bone>, rule: RootRule, i: nat)
    requires ParentsOrdered(bones) && i < |bones|
    ensures BoneWorld(ops, bones, rule, i) == ComposePath(ops, bones, rule, Ancestry(bones, i))
    decreases i
  {
    if bones[i].pindex != -1 {
      var p: nat := bones[i].pindex;
      WorldAlongAncestry(ops, bones, rule, p);
      var path := Ancestry(bones, i);
      assert path[..|path| - 1] == Ancestry(bones, p);
    }
  }

  /**
   * A bone's world transform depends only on the bones stored up to it, so
   * bones appended after it (or a longer skeleton sharing the prefix) leave it unchanged.
   */
  lemma {:induction false} WorldSeesOnlyEarlierBones(ops: TransformOps, bones: seq<Bone>, bones': seq<Bone>, rule: RootRule, i: nat)
    requires ParentsOrdered(bones) && ParentsOrdered(bones')
    requires i < |bones| && i < |bones'| && bones[..i + 1] == bones'[..i + 1]
    ensures BoneWorld(ops, bones, rule, i) == BoneWorld(ops, bones', rule, i)
    decreases i
  {
    assert bones[i] == bones[..i + 1][i] == bones'[i];
    if bones[i].pindex != -1 {
      var p: nat := bones[i].pindex;
      assert bones[..p + 1] == bones[..i + 1][..p + 1];
      assert bones'[..p + 1] == bones'[..i + 1][..p + 1];
      WorldSeesOnlyEarlierBones(ops, bones, bones', rule, p);
    }
  }

  /**
   * With an identity offset and an algebra where the identity is a left unit,
   * the pose rule for roots gives the same world transforms as the bind rule.
   */
  lemma {:induction false} IdentityOffsetIsCopy(ops: TransformOps, bones: seq<Bone>, i: nat)
    requires IdentityIsLeftUnit(ops)
    requires ParentsOrdered(bones) && i < |bones|
    ensures BoneWorld(ops, bones, ComposeOffset(Identity), i) == BoneWorld(ops, bones, CopyLocal, i)
    decreases i
  {
    if bones[i].pindex != -1 {
      IdentityOffsetIsCopy(ops, bones, bones[i].pindex);
    }
  }
}
