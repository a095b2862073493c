# DQTSkin — a Dafny model of dual-quaternion skinning with separate scale

`DQTSkin` turns a skeleton (a flat array of bones, each with a local
transform and the index of its parent, `-1` for a root) into three flat
per-bone buffers for a vertex shader:

- `offsetQBuffer`, 4 values per bone: the rotation (real) half of the bone's
  offset dual quaternion;
- `offsetPBuffer`, 4 values per bone: the translation (dual) half;
- `offsetSBuffer`, 3 values per bone: the offset's scale.

The constructor allocates the buffers for the armature's `N` bones, fills
every slot with the identity offset (quaternion `(0,0,0,1)`, translation
`(0,0,0,0)`, scale `(1,1,1)`), then walks the bones in index order computing
each bone's rest-pose world transform (its local transform for a root, the
parent's world transform composed with its local transform otherwise) and
stores its inverse as the bone's bind transform.

`updateFromPose` walks the pose's bones in index order, recomputes each world
transform in place (a root is placed by the pose's offset), composes it with
the bind transform, converts rotation and translation to a dual quaternion and
writes 4 + 4 + 3 values at offsets `4*i` and `3*i`.

The model is imperative, like the source: `Skinning.DQTSkin` is a class whose
`world`, `bind` and buffer fields are arrays written in place by index loops.
Each method is proved against specification functions:

- `Hierarchy.BoneWorld` / `Hierarchy.Worlds`: the world transform of every
  bone, defined by following parent links;
- `Skinning.BindTransforms`, `Skinning.SkinOffset`, `Skinning.OffsetDualQuat`:
  bind transforms and skinning offsets;
- `BufferLayout.Flatten` / `BufferLayout.Repack`: rows of a fixed width laid
  end to end, the first `|rows|` slots of a buffer overwritten and the rest
  kept.

The transform algebra (`mul`, `invert`) and the rotation-translation to
dual-quaternion conversion are uninterpreted: a skinner receives them as a
`Transforms.TransformOps` value. Everything proved holds whatever those
floating-point operations compute. There are two exceptions, each stating
its assumption about the algebra as a `requires`:
`Hierarchy.IdentityOffsetIsCopy` assumes that the identity transform is a
left unit (`Transforms.IdentityIsLeftUnit`), and
`Skinning.BindPoseGivesIdentityRows` assumes the idealised algebra axioms in
`Transforms.Idealised`.

Files: `transforms.dfy` (the transform algebra), `hierarchy.dfy` (bones, world
transforms, ancestry), `buffers.dfy` (flat buffer layout and the `toBuf`
writes), `dqt_skin.dfy` (the skinner).

## Model

| member | source | states |
|---|---|---|
| Skinning.DQTSkin.constructor | src/skinning/DQTSkin.ts:24-64 | Q and P hold 4·N values, S holds 3·N, and `world` and `bind` have N entries. Every slot holds the identity offset. `world` holds the rest-pose world transforms of the armature. `bind` holds their inverses. All five arrays are fresh and distinct. Requires parents to be stored before their children. |
| Skinning.FillIdentity | src/skinning/DQTSkin.ts:36-45 | The first pass leaves a default transform in every `world` and `bind` entry. Q is N copies of `(0,0,0,1)`, P is N copies of `(0,0,0,0)` and S is N copies of `(1,1,1)`, each laid end to end. |
| Skinning.StoreIdentity | src/skinning/DQTSkin.ts:41-44 | The three writes of iteration `i` extend the identity-filled prefix of each buffer from `i` slots to `i + 1` and keep the rest. |
| Skinning.IdentityStep | src/skinning/DQTSkin.ts:41-44 | Writing the identity rows at offsets `4*i` and `3*i` of buffers filled up to slot `i` gives buffers filled up to slot `i + 1`. |
| Skinning.IdentitySlots | src/skinning/DQTSkin.ts:37-45 | After the fill, Q[4i..4i+3] = (0,0,0,1), P[4i..4i+3] = (0,0,0,0) and S[3i..3i+2] = (1,1,1) for every bone `i`. |
| Skinning.ComputeRestPose | src/skinning/DQTSkin.ts:47-58 | The second pass leaves the world transform of every bone (local for a root, parent's world composed with local otherwise) in `world`, and its inverse in `bind`. |
| Skinning.RestBone | src/skinning/DQTSkin.ts:49-57 | Given the earlier bones' world transforms, iteration `i` stores bone `i`'s world transform and its inverse at index `i` and changes nothing else. |
| Skinning.DQTSkin.UpdateFromPose | src/skinning/DQTSkin.ts:69-113 | `world` holds the posed world transforms of the pose's bones, with roots placed by the pose's offset; entries beyond the pose are unchanged. Each buffer's first n slots (n the pose's bone count) hold the posed bones' offset rows, later slots keep their values, and no buffer changes length. `bind` is unchanged. Requires pose length ≤ N and parents before children. |
| Skinning.DQTSkin.UpdateStep | src/skinning/DQTSkin.ts:78-110 | One iteration of the update loop. If bones `0..i-1` hold their posed world transforms and offset rows and everything later is as before the update, then after it bones `0..i` do, and everything from `i + 1` on is still as before. |
| Skinning.DQTSkin.UpdateBone | src/skinning/DQTSkin.ts:79-109 | Iteration `i` overwrites `world[i]` with bone `i`'s posed world transform, computed from the parent entry already updated in this call. It writes the two halves of the dual quaternion of `world[i] ∘ bind[i]` into Q and P at `4*i`, and that offset's scale into S at `3*i`. Nothing else changes. |
| Skinning.DQTSkin.StoreOffset | src/skinning/DQTSkin.ts:95-109 | The eleven element writes replace exactly Q[4i..4i+3] and P[4i..4i+3] with the halves of the dual quaternion, and S[3i..3i+2] with the scale. Every other index keeps its value. |
| Skinning.BuffersStep | src/skinning/DQTSkin.ts:95-109 | Storing bone `i`'s offset rows into buffers that hold the first `i` bones' rows gives buffers that hold the first `i + 1`. |
| Skinning.PackedSlots | src/skinning/DQTSkin.ts:95-109 | In the buffers an update leaves, a posed bone `i`'s slots hold dq[0..3], dq[4..7] and `o.scl` of its own offset `o`. A bone beyond the pose keeps its previous slot contents. Buffer lengths are unchanged. |
| Skinning.RepackingSamePoseIsStable | src/skinning/DQTSkin.ts:78-110 | Packing the same pose a second time, with the same bind transforms, leaves the buffers as the first packing did. (That the buffers do not depend on what `world` held before the call comes from the three buffer ensures of `Skinning.DQTSkin.UpdateFromPose`, which never mention the old `world`; its `world` ensures does, for the entries beyond the pose.) |
| Skinning.DQTSkin.UpdateTwiceAsOnce | src/skinning/DQTSkin.ts:78-110 | Calling `updateFromPose` twice with the same pose leaves `world`, `bind` and all three buffers exactly as one call does. |
| Skinning.BindPoseGivesIdentityRows | src/skinning/DQTSkin.ts:84-109 | Assumes an idealised algebra: identity is a left unit, `t ∘ t⁻¹` is the identity, and the identity converts to the identity dual quaternion. Under those assumptions, posing the armature in its rest pose with an identity offset gives every bone the identity rows `(0,0,0,1)`, `(0,0,0,0)` and `(1,1,1)`. |
| Hierarchy.Ancestry | src/skinning/DQTSkin.ts:52-54 | The chain from a root to bone `i`: it starts at a root and ends at `i`. Each step goes from a parent to its child, and indices strictly increase along it. |
| Hierarchy.WorldAlongAncestry | src/skinning/DQTSkin.ts:52-54 | A bone's world transform is the composition of the local transforms along its ancestry, with the root rule applied to the first. |
| Hierarchy.WorldSeesOnlyEarlierBones | src/skinning/DQTSkin.ts:78-84 | Bone `i`'s world transform depends only on bones `0..i`: changing or appending bones after `i` leaves it unchanged. |
| Hierarchy.IdentityOffsetIsCopy | src/skinning/DQTSkin.ts:83-84 | If identity is a left unit, composing roots onto an identity pose offset gives the same world transforms as copying the roots' local transforms. |
| BufferLayout.ToBuf | src/skinning/DQTSkin.ts:42-44 | Writing a row at an offset replaces exactly those values and keeps the rest of the buffer. |
| BufferLayout.SlotOfFlatten | src/skinning/DQTSkin.ts:95-96 | In rows laid end to end, the slot at `width*i` is row `i`. |
| BufferLayout.SlotOfRepack | src/skinning/DQTSkin.ts:95-109 | Repacking keeps the length. A slot below the number of rows holds its row, and every other slot keeps its previous contents, so slots of different bones never overlap. |
| BufferLayout.RepackIdempotent | src/skinning/DQTSkin.ts:78-110 | Repacking a buffer with the rows it already holds changes nothing. |
| BufferLayout.RepackStep | src/skinning/DQTSkin.ts:95-109 | Writing row `i` into slot `i` of a buffer that holds rows `0..i-1` gives a buffer that holds rows `0..i`. |
| BufferLayout.RepackAll | src/skinning/DQTSkin.ts:32-45 | A buffer sized for exactly the rows written retains nothing from before the writes. |
| BufferLayout.WriteRow4 | src/skinning/DQTSkin.ts:97-105 | Four element writes at `ii+0..ii+3` replace that slot by the row. |
| BufferLayout.WriteRow3 | src/skinning/DQTSkin.ts:107-109 | Three element writes at `si+0..si+2` replace that slot by the row. |

## Left out

- The floating-point transform algebra (`transform.mul`, `transform.invert`) and gl-matrix's `quat2.fromRotationTranslation` are uninterpreted parameters. Their definitions are not part of this model.
- Float32 rounding is not modelled: buffer values are `real`s. `world[i] ∘ bind[i] = identity` holds only up to rounding, so it appears only as an idealised axiom, in `Skinning.BindPoseGivesIdentityRows`.
- The internals of `Vec3Ex.toBuf` and `Vec4Ex.toBuf` are not part of this model. Only their effect is modelled, by `BufferLayout.ToBuf`: writing the given values from the given offset.
- Armature, Bone and ISkeleton are reduced to the fields the skinner reads: `local`, `pindex` and the pose's `offset`.
- The temporaries (`bOffset`, `dq`, the per-bone `new Transform()` objects) are not modelled. They are values here, so neither allocation nor object identity appears in the model.
- The renderer side (shader uniforms, GPU upload) is not part of this model.
- `updateFromPose`'s `return this` (a fluent return) is not modelled.
- Bone-count and hierarchy validation: the code validates neither the pose's bone count nor the parent order, and reports no error for either. The model follows the code. The pose may have fewer bones than N, and later slots then keep their contents. The pose having at most N bones is a `requires` of `Skinning.DQTSkin.UpdateFromPose`, not an error path.
- Parent order: the code never checks that each `pindex` is -1 or smaller than the bone's index. Both passes require it (`Hierarchy.ParentsOrdered`). The model does not cover what the code does otherwise. A `pindex` equal to the bone's own index composes onto the entry being overwritten. A larger in-range `pindex` reads whatever `world[pindex]` holds: the default transform in the constructor; in `updateFromPose`, the rest-pose world transform before the first update and the previous update's value after it. An out-of-range `pindex` reads `undefined`.
- Skinning.DQTSkin.UpdateFromPose: the element writes of one bone's slots are modelled in `Skinning.DQTSkin.StoreOffset`, and the loop body in `Skinning.DQTSkin.UpdateBone`, wrapped with its prefix bookkeeping in `Skinning.DQTSkin.UpdateStep`. These are the same statements as the source's loop body, factored into methods. The constructor's two loops are factored the same way, into `Skinning.FillIdentity` and `Skinning.ComputeRestPose`.
