/**
 * Dual-quaternion skinning with separate scale: turns a bone hierarchy into
 * three flat per-bone buffers (rotation half, translation half, scale).
 */
module Skinning {
  import opened Transforms
  import opened Hierarchy
  import opened BufferLayout

  /** The inverse bind transforms: the inverse of each bone's world transform in the rest pose. */
  function BindTransforms(ops: TransformOps, bones: seq<Bone>): seq<Transform>
    requires ParentsOrdered(bones)
  {
    seq(|bones|, i requires 0 <= i < |bones| => ops.invert(BoneWorld(ops, bones, CopyLocal, i)))
  }

  /**
   * The skinning offset of bone `i`: its current world transform composed
   * with its inverse bind transform, mapping the rest pose to the current pose.
   */
  function SkinOffset(ops: TransformOps, pose: Pose, bind: seq<Transform>, i: nat): Transform
    requires ParentsOrdered(pose.bones) && i < |pose.bones| <= |bind|
  {
    ops.mul(BoneWorld(ops, pose.bones, ComposeOffset(pose.offset), i), bind[i])
  }

  /** The skinning offset of bone `i` as a dual quaternion (its scale is carried separately). */
  function OffsetDualQuat(ops: TransformOps, pose: Pose, bind: seq<Transform>, i: nat): DualQuat
    requires ParentsOrdered(pose.bones) && i < |pose.bones| <= |bind|
  {
    var o := SkinOffset(ops, pose, bind, i);
    ops.fromRotationTranslation(o.rot, o.pos)
  }

  /** Per posed bone, the rotation (real) half of its offset dual quaternion. */
  function RotationRows(ops: TransformOps, pose: Pose, bind: seq<Transform>): (rows: seq<seq<real>>)
    requires ParentsOrdered(pose.bones) && |pose.bones| <= |bind|
    ensures |rows| == |pose.bones| && RowsOfWidth(rows, 4)
  {
    seq(|pose.bones|, i requires 0 <= i < |pose.bones| => OffsetDualQuat(ops, pose, bind, i)[..4])
  }

  /** Per posed bone, the translation (dual) half of its offset dual quaternion. */
  function TranslationRows(ops: TransformOps, pose: Pose, bind: seq<Transform>): (rows: seq<seq<real>>)
    requires ParentsOrdered(pose.bones) && |pose.bones| <= |bind|
    ensures |rows| == |pose.bones| && RowsOfWidth(rows, 4)
  {
    seq(|pose.bones|, i requires 0 <= i < |pose.bones| => OffsetDualQuat(ops, pose, bind, i)[4..])
  }

  /** Per posed bone, the scale of its skinning offset. */
  function ScaleRows(ops: TransformOps, pose: Pose, bind: seq<Transform>): (rows: seq<seq<real>>)
    requires ParentsOrdered(pose.bones) && |pose.bones| <= |bind|
    ensures |rows| == |pose.bones| && RowsOfWidth(rows, 3)
  {
    seq(|pose.bones|, i requires 0 <= i < |pose.bones| => SkinOffset(ops, pose, bind, i).scl)
  }

  /**
   * Storing bone `i`'s offset into buffers that hold the first `i` bones'
   * offsets gives buffers that hold the first `i + 1`.
   */
  lemma BuffersStep(ops: TransformOps, pose: Pose, bind: seq<Transform>, i: nat,
                    q0: seq<real>, p0: seq<real>, s0: seq<real>,
                    q: seq<real>, p: seq<real>, s: seq<real>,
                    q': seq<real>, p': seq<real>, s': seq<real>)
    requires ParentsOrdered(pose.bones) && i < |pose.bones| <= |bind|
    requires |q0| == 4 * |bind| && |p0| == 4 * |bind| && |s0| == 3 * |bind|
    requires q == Repack(q0, 4, RotationRows(ops, pose, bind)[..i])
    requires p == Repack(p0, 4, TranslationRows(ops, pose, bind)[..i])
    requires s == Repack(s0, 3, ScaleRows(ops, pose, bind)[..i])
    requires q' == q[..4 * i] + OffsetDualQuat(ops, pose, bind, i)[..4] + q[4 * i + 4..]
    requires p' == p[..4 * i] + OffsetDualQuat(ops, pose, bind, i)[4..] + p[4 * i + 4..]
    requires s' == s[..3 * i] + SkinOffset(ops, pose, bind, i).scl + s[3 * i + 3..]
    ensures q' == Repack(q0, 4, RotationRows(ops, pose, bind)[..i + 1])
    ensures p' == Repack(p0, 4, TranslationRows(ops, pose, bind)[..i + 1])
    ensures s' == Repack(s0, 3, ScaleRows(ops, pose, bind)[..i + 1])
  {
    RepackStep(q0, 4, RotationRows(ops, pose, bind), i, q, q');
    RepackStep(p0, 4, TranslationRows(ops, pose, bind), i, p, p');
    RepackStep(s0, 3, ScaleRows(ops, pose, bind), i, s, s');
  }

  /**
   * The slots of packed buffers, bone by bone: a posed bone's slots hold the
   * two halves of its offset dual quaternion and its offset's scale, and the
   * slots of bones beyond the pose keep what they held before.
   */
  lemma PackedSlots(ops: TransformOps, pose: Pose, bind: seq<Transform>, i: nat,
                    q0: seq<real>, p0: seq<real>, s0: seq<real>)
    requires ParentsOrdered(pose.bones) && |pose.bones| <= |bind| && i < |bind|
    requires |q0| == 4 * |bind| && |p0| == 4 * |bind| && |s0| == 3 * |bind|
    ensures 4 * i + 4 <= |q0| && 3 * i + 3 <= |s0|
    ensures var q := Repack(q0, 4, RotationRows(ops, pose, bind));
            var p := Repack(p0, 4, TranslationRows(ops, pose, bind));
            var s := Repack(s0, 3, ScaleRows(ops, pose, bind));
            && |q| == |q0| && |p| == |p0| && |s| == |s0|
            && (i < |pose.bones| ==>
                  && q[4 * i .. 4 * i + 4] == OffsetDualQuat(ops, pose, bind, i)[..4]
                  && p[4 * i .. 4 * i + 4] == OffsetDualQuat(ops, pose, bind, i)[4..]
                  && s[3 * i .. 3 * i + 3] == SkinOffset(ops, pose, bind, i).scl)
            && (i >= |pose.bones| ==>
                  && q[4 * i .. 4 * i + 4] == q0[4 * i .. 4 * i + 4]
                  && p[4 * i .. 4 * i + 4] == p0[4 * i .. 4 * i + 4]
                  && s[3 * i .. 3 * i + 3] == s0[3 * i .. 3 * i + 3])
  {
    SlotOfRepack(q0, 4, RotationRows(ops, pose, bind), i);
    SlotOfRepack(p0, 4, TranslationRows(ops, pose, bind), i);
    SlotOfRepack(s0, 3, ScaleRows(ops, pose, bind), i);
  }

  /**
   * Packing the same pose a second time (with the same bind transforms) leaves
   * the buffers as the first packing left them.
   */
  lemma RepackingSamePoseIsStable(ops: TransformOps, pose: Pose, bind: seq<Transform>,
                                  q0: seq<real>, p0: seq<real>, s0: seq<real>)
    requires ParentsOrdered(pose.bones) && |pose.bones| <= |bind|
    requires |q0| == 4 * |bind| && |p0| == 4 * |bind| && |s0| == 3 * |bind|
    ensures var q := Repack(q0, 4, RotationRows(ops, pose, bind));
            var p := Repack(p0, 4, TranslationRows(ops, pose, bind));
            var s := Repack(s0, 3, ScaleRows(ops, pose, bind));
            && |q| == |q0| && |p| == |p0| && |s| == |s0|
            && Repack(q, 4, RotationRows(ops, pose, bind)) == q
            && Repack(p, 4, TranslationRows(ops, pose, bind)) == p
            && Repack(s, 3, ScaleRows(ops, pose, bind)) == s
  {
    RepackIdempotent(q0, 4, RotationRows(ops, pose, bind));
    RepackIdempotent(p0, 4, TranslationRows(ops, pose, bind));
    RepackIdempotent(s0, 3, ScaleRows(ops, pose, bind));
  }

  /** After construction, bone `i`'s slots hold the identity offset. */
  lemma IdentitySlots(n: nat, i: nat)
    requires i < n
    ensures 4 * i + 4 <= 4 * n && 3 * i + 3 <= 3 * n
    ensures Flatten(Repeat(QuatIdentity, n), 4)[4 * i .. 4 * i + 4] == [0.0, 0.0, 0.0, 1.0]
    ensures Flatten(Repeat(QuatZero, n), 4)[4 * i .. 4 * i + 4] == [0.0, 0.0, 0.0, 0.0]
    ensures Flatten(Repeat(Vec3One, n), 3)[3 * i .. 3 * i + 3] == [1.0, 1.0, 1.0]
  {
    SlotOfFlatten(Repeat(QuatIdentity, n), 4, i);
    SlotOfFlatten(Repeat(QuatZero, n), 4, i);
    SlotOfFlatten(Repeat(Vec3One, n), 3, i);
  }

  /** A scratch array holding `target` below `i` and `prev` from `i` on agrees with `target` below `i`. */
  lemma PrefixHolds<T>(target: seq<T>, prev: seq<T>, i: nat, cur: seq<T>)
    requires i < |target| <= |prev| && cur == target[..i] + prev[i..]
    ensures |cur| == |prev|
    ensures forall k :: 0 <= k < i ==> cur[k] == target[k]
  {
  }

  /** Storing `target[i]` at `i` extends the agreeing prefix by one. */
  lemma PrefixStep<T>(target: seq<T>, prev: seq<T>, i: nat, cur: seq<T>, next: seq<T>)
    requires i < |target| <= |prev| && cur == target[..i] + prev[i..]
    requires next == cur[i := target[i]]
    ensures next == target[..i + 1] + prev[i + 1..]
  {
  }

  /**
   * Storing the identity rows into slot `i` of buffers that hold them in the
   * first `i` slots gives buffers that hold them in the first `i + 1`.
   */
  lemma IdentityStep(n: nat, i: nat,
                     q0: seq<real>, p0: seq<real>, s0: seq<real>,
                     q: seq<real>, p: seq<real>, s: seq<real>,
                     q': seq<real>, p': seq<real>, s': seq<real>)
    requires i < n && |q0| == 4 * n && |p0| == 4 * n && |s0| == 3 * n
    requires q == Repack(q0, 4, Repeat(QuatIdentity, n)[..i])
    requires p == Repack(p0, 4, Repeat(QuatZero, n)[..i])
    requires s == Repack(s0, 3, Repeat(Vec3One, n)[..i])
    requires q' == q[..4 * i] + QuatIdentity + q[4 * i + 4..]
    requires p' == p[..4 * i] + QuatZero + p[4 * i + 4..]
    requires s' == s[..3 * i] + Vec3One + s[3 * i + 3..]
    ensures q' == Repack(q0, 4, Repeat(QuatIdentity, n)[..i + 1])
    ensures p' == Repack(p0, 4, Repeat(QuatZero, n)[..i + 1])
    ensures s' == Repack(s0, 3, Repeat(Vec3One, n)[..i + 1])
  {
    RepackStep(q0, 4, Repeat(QuatIdentity, n), i, q, q');
    RepackStep(p0, 4, Repeat(QuatZero, n), i, p, p');
    RepackStep(s0, 3, Repeat(Vec3One, n), i, s, s');
  }

  /** Writes the identity offset into slot `i` of each buffer, extending the filled prefix by one slot. */
  method StoreIdentity(q: array<real>, p: array<real>, s: array<real>, i: nat,
                       ghost n: nat, ghost q0: seq<real>, ghost p0: seq<real>, ghost s0: seq<real>)
    requires i < n && q.Length == 4 * n && p.Length == 4 * n && s.Length == 3 * n
    requires |q0| == 4 * n && |p0| == 4 * n && |s0| == 3 * n
    requires q != p && q != s && p != s
    requires q[..] == Repack(q0, 4, Repeat(QuatIdentity, n)[..i])
    requires p[..] == Repack(p0, 4, Repeat(QuatZero, n)[..i])
    requires s[..] == Repack(s0, 3, Repeat(Vec3One, n)[..i])
    modifies q, p, s
    ensures q[..] == Repack(q0, 4, Repeat(QuatIdentity, n)[..i + 1])
    ensures p[..] == Repack(p0, 4, Repeat(QuatZero, n)[..i + 1])
    ensures s[..] == Repack(s0, 3, Repeat(Vec3One, n)[..i + 1])
  {
    ghost var qCur, pCur, sCur := q[..], p[..], s[..];
    ToBuf(QuatIdentity, q, i * 4);
    ToBuf(QuatZero, p, i * 4);
    ToBuf(Vec3One, s, i * 3);
    IdentityStep(n, i, q0, p0, s0, qCur, pCur, sCur, q[..], p[..], s[..]);
  }

  /**
   * The constructor's first pass: a default (identity) transform in every
   * world and bind entry, and the identity offset in every bone's slots.
   */
  method FillIdentity(w: array<Transform>, b: array<Transform>, q: array<real>, p: array<real>, s: array<real>)
    requires b.Length == w.Length && q.Length == 4 * w.Length && p.Length == 4 * w.Length && s.Length == 3 * w.Length
    requires w != b && q != p && q != s && p != s
    modifies w, b, q, p, s
    ensures w[..] == seq(w.Length, _ => Identity) && b[..] == seq(w.Length, _ => Identity)
    ensures q[..] == Flatten(Repeat(QuatIdentity, w.Length), 4)
    ensures p[..] == Flatten(Repeat(QuatZero, w.Length), 4)
    ensures s[..] == Flatten(Repeat(Vec3One, w.Length), 3)
  {
    var bCnt := w.Length;
    ghost var ids := seq(bCnt, _ => Identity);
    ghost var w0, b0, q0, p0, s0 := w[..], b[..], q[..], p[..], s[..];
    for i := 0 to bCnt
      invariant w[..] == ids[..i] + w0[i..]
      invariant b[..] == ids[..i] + b0[i..]
      invariant q[..] == Repack(q0, 4, Repeat(QuatIdentity, bCnt)[..i])
      invariant p[..] == Repack(p0, 4, Repeat(QuatZero, bCnt)[..i])
      invariant s[..] == Repack(s0, 3, Repeat(Vec3One, bCnt)[..i])
    {
      ghost var wCur, bCur := w[..], b[..];
      w[i] := Identity;
      b[i] := Identity;
      PrefixStep(ids, w0, i, wCur, w[..]);
      PrefixStep(ids, b0, i, bCur, b[..]);
      StoreIdentity(q, p, s, i, bCnt, q0, p0, s0);
    }
    assert ids[..bCnt] == ids;
    assert Repeat(QuatIdentity, bCnt)[..bCnt] == Repeat(QuatIdentity, bCnt);
    assert Repeat(QuatZero, bCnt)[..bCnt] == Repeat(QuatZero, bCnt);
    assert Repeat(Vec3One, bCnt)[..bCnt] == Repeat(Vec3One, bCnt);
    RepackAll(q0, 4, Repeat(QuatIdentity, bCnt));
    RepackAll(p0, 4, Repeat(QuatZero, bCnt));
    RepackAll(s0, 3, Repeat(Vec3One, bCnt));
  }

  /**
   * Computes bone `i`'s rest-pose world transform from its parent's (already
   * computed) and stores it, and its inverse as the bone's bind transform.
   */
  method RestBone(ops: TransformOps, bones: seq<Bone>, w: array<Transform>, b: array<Transform>, i: nat)
    requires ParentsOrdered(bones) && i < |bones| == w.Length == b.Length && w != b
    requires forall k :: 0 <= k < i ==> w[..][k] == BoneWorld(ops, bones, CopyLocal, k)
    modifies w, b
    ensures w[..] == old(w[..])[i := BoneWorld(ops, bones, CopyLocal, i)]
    ensures b[..] == old(b[..])[i := ops.invert(BoneWorld(ops, bones, CopyLocal, i))]
  {
    var bone := bones[i];
    if bone.pindex != -1 {
      assert w[bone.pindex] == w[..][bone.pindex];
      w[i] := ops.mul(w[bone.pindex], bone.local);
    } else {
      w[i] := bone.local;
    }
    b[i] := ops.invert(w[i]);
  }

  /**
   * The constructor's second pass: each bone's world transform in the rest
   * pose, in index order, and its inverse as the bone's bind transform.
   */
  method ComputeRestPose(ops: TransformOps, bones: seq<Bone>, w: array<Transform>, b: array<Transform>)
    requires ParentsOrdered(bones) && w.Length == |bones| && b.Length == |bones| && w != b
    modifies w, b
    ensures w[..] == Worlds(ops, bones, CopyLocal)
    ensures b[..] == BindTransforms(ops, bones)
  {
    var bCnt := |bones|;
    ghost var w1, b1 := w[..], b[..];
    ghost var worlds, binds := Worlds(ops, bones, CopyLocal), BindTransforms(ops, bones);
    for i := 0 to bCnt
      invariant w[..] == worlds[..i] + w1[i..]
      invariant b[..] == binds[..i] + b1[i..]
    {
      ghost var wCur, bCur := w[..], b[..];
      PrefixHolds(worlds, w1, i, wCur);
      RestBone(ops, bones, w, b, i);
      PrefixStep(worlds, w1, i, wCur, w[..]);
      PrefixStep(binds, b1, i, bCur, b[..]);
    }
    assert worlds[..bCnt] == worlds && binds[..bCnt] == binds;
  }

  class DQTSkin {
    /** The transform algebra the skinner computes with. */
    const ops: TransformOps
    /** The bones of the armature the skinner was built for. */
    ghost const armature: seq<Bone>

    /** Inverse bind transform per bone; never written after construction. */
    const bind: array<Transform>
    /** Scratch: each bone's world transform, overwritten by every update. */
    const world: array<Transform>

    /** 4 values per bone: rotation half of the offset dual quaternion. */
    const offsetQBuffer: array<real>
    /** 4 values per bone: translation half of the offset dual quaternion. */
    const offsetPBuffer: array<real>
    /** 3 values per bone: scale of the offset. */
    const offsetSBuffer: array<real>

    /**
     * One slot per bone in every array, the arrays are distinct, and `bind`
     * holds the inverse bind transforms of the armature.
     */
    ghost predicate Valid()
      reads this, bind
    {
      && Layout()
      && ParentsOrdered(armature)
      && bind[..] == BindTransforms(ops, armature)
    }

    /** One slot per armature bone in every array, and the arrays are distinct. */
    ghost predicate Layout()
      reads this
    {
      && world.Length == |armature| && bind.Length == |armature|
      && offsetQBuffer.Length == 4 * |armature|
      && offsetPBuffer.Length == 4 * |armature|
      && offsetSBuffer.Length == 3 * |armature|
      && world != bind
      && offsetQBuffer != offsetPBuffer && offsetQBuffer != offsetSBuffer && offsetPBuffer != offsetSBuffer
    }

    /**
     * Allocates the buffers, fills every bone's slots with identity values,
     * then computes each bone's world transform in the rest pose and its inverse.
     */
    constructor (ops: TransformOps, bones: seq<Bone>)
      requires ParentsOrdered(bones)
      ensures Valid() && this.ops == ops && armature == bones
      ensures fresh(bind) && fresh(world) && fresh(offsetQBuffer) && fresh(offsetPBuffer) && fresh(offsetSBuffer)
      ensures world[..] == Worlds(ops, bones, CopyLocal)
      ensures offsetQBuffer[..] == Flatten(Repeat(QuatIdentity, |bones|), 4)
      ensures offsetPBuffer[..] == Flatten(Repeat(QuatZero, |bones|), 4)
      ensures offsetSBuffer[..] == Flatten(Repeat(Vec3One, |bones|), 3)
    {
      var bCnt := |bones|;
      var w := new Transform[bCnt];
      var b := new Transform[bCnt];
      var q := new real[4 * bCnt];
      var p := new real[4 * bCnt];
      var s := new real[3 * bCnt];

      FillIdentity(w, b, q, p, s);
      ComputeRestPose(ops, bones, w, b);

      this.ops := ops;
      armature := bones;
      bind := b;
      world := w;
      offsetQBuffer := q;
      offsetPBuffer := p;
      offsetSBuffer := s;
    }

    /**
     * Recomputes the world transform of every posed bone in index order and
     * writes each bone's skinning offset into its slots of the three buffers.
     * Bones at or beyond the pose's length keep their world transform and slots.
     */
    method UpdateFromPose(pose: Pose)
      requires Valid()
      requires |pose.bones| <= world.Length
      requires ParentsOrdered(pose.bones)
      modifies world, offsetQBuffer, offsetPBuffer, offsetSBuffer
      ensures Valid()
      ensures bind[..] == old(bind[..])
      ensures world[..] == Worlds(ops, pose.bones, ComposeOffset(pose.offset)) + old(world[..])[|pose.bones|..]
      ensures offsetQBuffer[..] == Repack(old(offsetQBuffer[..]), 4, RotationRows(ops, pose, bind[..]))
      ensures offsetPBuffer[..] == Repack(old(offsetPBuffer[..]), 4, TranslationRows(ops, pose, bind[..]))
      ensures offsetSBuffer[..] == Repack(old(offsetSBuffer[..]), 3, ScaleRows(ops, pose, bind[..]))
    {
      var n := |pose.bones|;
      ghost var q0, p0, s0, w0 := offsetQBuffer[..], offsetPBuffer[..], offsetSBuffer[..], world[..];
      for i := 0 to n
        invariant world[..] == Worlds(ops, pose.bones, ComposeOffset(pose.offset))[..i] + w0[i..]
        invariant offsetQBuffer[..] == Repack(q0, 4, RotationRows(ops, pose, bind[..])[..i])
        invariant offsetPBuffer[..] == Repack(p0, 4, TranslationRows(ops, pose, bind[..])[..i])
        invariant offsetSBuffer[..] == Repack(s0, 3, ScaleRows(ops, pose, bind[..])[..i])
      {
        UpdateStep(pose, i, w0, q0, p0, s0);
      }
      assert Worlds(ops, pose.bones, ComposeOffset(pose.offset))[..n] == Worlds(ops, pose.bones, ComposeOffset(pose.offset));
      assert RotationRows(ops, pose, bind[..])[..n] == RotationRows(ops, pose, bind[..]);
      assert TranslationRows(ops, pose, bind[..])[..n] == TranslationRows(ops, pose, bind[..]);
      assert ScaleRows(ops, pose, bind[..])[..n] == ScaleRows(ops, pose, bind[..]);
    }

    /**
     * One iteration of the update loop, stated on the processed prefix: with
     * bones `0..i-1` done, updating bone `i` leaves bones `0..i` done and
     * everything from `i + 1` on as it was before the update started.
     */
    method UpdateStep(pose: Pose, i: nat, ghost w0: seq<Transform>,
                      ghost q0: seq<real>, ghost p0: seq<real>, ghost s0: seq<real>)
      requires Valid()
      requires ParentsOrdered(pose.bones) && i < |pose.bones| <= world.Length
      requires |w0| == world.Length && |q0| == offsetQBuffer.Length
      requires |p0| == offsetPBuffer.Length && |s0| == offsetSBuffer.Length
      requires world[..] == Worlds(ops, pose.bones, ComposeOffset(pose.offset))[..i] + w0[i..]
      requires offsetQBuffer[..] == Repack(q0, 4, RotationRows(ops, pose, bind[..])[..i])
      requires offsetPBuffer[..] == Repack(p0, 4, TranslationRows(ops, pose, bind[..])[..i])
      requires offsetSBuffer[..] == Repack(s0, 3, ScaleRows(ops, pose, bind[..])[..i])
      modifies world, offsetQBuffer, offsetPBuffer, offsetSBuffer
      ensures world[..] == Worlds(ops, pose.bones, ComposeOffset(pose.offset))[..i + 1] + w0[i + 1..]
      ensures offsetQBuffer[..] == Repack(q0, 4, RotationRows(ops, pose, bind[..])[..i + 1])
      ensures offsetPBuffer[..] == Repack(p0, 4, TranslationRows(ops, pose, bind[..])[..i + 1])
      ensures offsetSBuffer[..] == Repack(s0, 3, ScaleRows(ops, pose, bind[..])[..i + 1])
    {
      ghost var worlds := Worlds(ops, pose.bones, ComposeOffset(pose.offset));
      ghost var wCur, qCur, pCur, sCur := world[..], offsetQBuffer[..], offsetPBuffer[..], offsetSBuffer[..];
      PrefixHolds(worlds, w0, i, wCur);
      UpdateBone(pose, i);
      PrefixStep(worlds, w0, i, wCur, world[..]);
      BuffersStep(ops, pose, bind[..], i, q0, p0, s0, qCur, pCur, sCur,
                  offsetQBuffer[..], offsetPBuffer[..], offsetSBuffer[..]);
    }

    /**
     * Updating twice with the same pose leaves the buffers, `world` and `bind`
     * exactly as a single update does: the second call reads nothing the first
     * one changed except the entries it overwrites again.
     */
    method UpdateTwiceAsOnce(pose: Pose)
      requires Valid()
      requires |pose.bones| <= world.Length
      requires ParentsOrdered(pose.bones)
      modifies world, offsetQBuffer, offsetPBuffer, offsetSBuffer
      ensures Valid()
      ensures bind[..] == old(bind[..])
      ensures world[..] == Worlds(ops, pose.bones, ComposeOffset(pose.offset)) + old(world[..])[|pose.bones|..]
      ensures offsetQBuffer[..] == Repack(old(offsetQBuffer[..]), 4, RotationRows(ops, pose, bind[..]))
      ensures offsetPBuffer[..] == Repack(old(offsetPBuffer[..]), 4, TranslationRows(ops, pose, bind[..]))
      ensures offsetSBuffer[..] == Repack(old(offsetSBuffer[..]), 3, ScaleRows(ops, pose, bind[..]))
    {
      UpdateFromPose(pose);
      UpdateFromPose(pose);
      RepackingSamePoseIsStable(ops, pose, bind[..], old(offsetQBuffer[..]), old(offsetPBuffer[..]), old(offsetSBuffer[..]));
    }

    /**
     * One pass of the update loop: bone `i`'s world transform from its
     * parent's, already recomputed in this update, or from the pose offset for
     * a root; then its skinning offset, stored into the bone's slots.
     */
    method UpdateBone(pose: Pose, i: nat)
      requires Valid() && ParentsOrdered(pose.bones) && i < |pose.bones| <= world.Length
      requires forall k :: 0 <= k < i ==> world[..][k] == BoneWorld(ops, pose.bones, ComposeOffset(pose.offset), k)
      modifies world, offsetQBuffer, offsetPBuffer, offsetSBuffer
      ensures world[..] == old(world[..])[i := BoneWorld(ops, pose.bones, ComposeOffset(pose.offset), i)]
      ensures offsetQBuffer[..] == old(offsetQBuffer[..])[..4 * i] + OffsetDualQuat(ops, pose, bind[..], i)[..4] + old(offsetQBuffer[..])[4 * i + 4..]
      ensures offsetPBuffer[..] == old(offsetPBuffer[..])[..4 * i] + OffsetDualQuat(ops, pose, bind[..], i)[4..] + old(offsetPBuffer[..])[4 * i + 4..]
      ensures offsetSBuffer[..] == old(offsetSBuffer[..])[..3 * i] + SkinOffset(ops, pose, bind[..], i).scl + old(offsetSBuffer[..])[3 * i + 3..]
    {
      var b := pose.bones[i];

      if b.pindex != -1 {
        assert world[b.pindex] == world[..][b.pindex];
        world[i] := ops.mul(world[b.pindex], b.local);
      } else {
        world[i] := ops.mul(pose.offset, b.local);
      }

      var bOffset := ops.mul(world[i], bind[i]);
      var dq := ops.fromRotationTranslation(bOffset.rot, bOffset.pos);
      assert bOffset == SkinOffset(ops, pose, bind[..], i);

      StoreOffset(i, dq, bOffset.scl);
    }

    /**
     * Stores one bone's skinning offset into its slots: the dual quaternion's
     * rotation half at 4*i in the Q buffer, its translation half at 4*i in the
     * P buffer and the scale at 3*i in the S buffer. Nothing else changes.
     */
    method StoreOffset(i: nat, dq: DualQuat, scl: Vec3)
      requires Layout() && i < world.Length
      modifies offsetQBuffer, offsetPBuffer, offsetSBuffer
      ensures offsetQBuffer[..] == old(offsetQBuffer[..])[..4 * i] + dq[..4] + old(offsetQBuffer[..])[4 * i + 4..]
      ensures offsetPBuffer[..] == old(offsetPBuffer[..])[..4 * i] + dq[4..] + old(offsetPBuffer[..])[4 * i + 4..]
      ensures offsetSBuffer[..] == old(offsetSBuffer[..])[..3 * i] + scl + old(offsetSBuffer[..])[3 * i + 3..]
    {
      var ii := i * 4;
      var si := i * 3;
      ghost var q0, p0, s0 := offsetQBuffer[..], offsetPBuffer[..], offsetSBuffer[..];
      offsetQBuffer[ii + 0] := dq[0];
      offsetQBuffer[ii + 1] := dq[1];
      offsetQBuffer[ii + 2] := dq[2];
      offsetQBuffer[ii + 3] := dq[3];
      WriteRow4(q0, offsetQBuffer[..], ii, dq[..4]);

      offsetPBuffer[ii + 0] := dq[4];
      offsetPBuffer[ii + 1] := dq[5];
      offsetPBuffer[ii + 2] := dq[6];
      offsetPBuffer[ii + 3] := dq[7];
      WriteRow4(p0, offsetPBuffer[..], ii, dq[4..]);

      offsetSBuffer[si + 0] := scl[0];
      offsetSBuffer[si + 1] := scl[1];
      offsetSBuffer[si + 2] := scl[2];
      WriteRow3(s0, offsetSBuffer[..], si, scl);
    }
  }

  /**
   * With an idealised algebra, posing the armature exactly as bound, under an
   * identity offset, makes every bone's slots hold identity values: rotation
   * (0, 0, 0, 1), translation (0, 0, 0, 0) and scale (1, 1, 1).
   */
  lemma BindPoseGivesIdentityRows(ops: TransformOps, bones: seq<Bone>)
    requires Idealised(ops) && ParentsOrdered(bones)
    ensures RotationRows(ops, Pose(bones, Identity), BindTransforms(ops, bones)) == Repeat(QuatIdentity, |bones|)
    ensures TranslationRows(ops, Pose(bones, Identity), BindTransforms(ops, bones)) == Repeat(QuatZero, |bones|)
    ensures ScaleRows(ops, Pose(bones, Identity), BindTransforms(ops, bones)) == Repeat(Vec3One, |bones|)
  {
    var pose := Pose(bones, Identity);
    var bind := BindTransforms(ops, bones);
    forall i | 0 <= i < |bones|
      ensures SkinOffset(ops, pose, bind, i) == Identity
    {
      IdentityOffsetIsCopy(ops, bones, i);
    }
  }
}
