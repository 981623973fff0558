# FSMN layers of the nnet3 xconfig generator

This project models the two FSMN (feedforward sequential memory network)
layer types of Kaldi's nnet3 xconfig tool:

- the `vfsmn-layer` (`XconfigvFSMNLayer`) — a scalar memory block over the
  raw input;
- the `cfsmn-layer` (`XconfigcFSMNLayer`) — the compact variant. It projects
  the input to `p_t` first, can add a residual `<layer>.m_t`, and can insert
  dropout after every memory tap.

Each class turns its settings into configuration lines. Those lines declare:

- the components: the affine transforms `W_all` or `W_in`/`W_out`, one
  per-element scale `U_h_<o>` per history offset and one `U_f_<o>` per
  lookahead offset, a no-op, an optional dropout, a ReLU and a batch-norm;
- the component-nodes that wire them: the weighted taps `h_t_<o>` and
  `f_t_<o>`, the memory sum `m_t`, the hidden `h_t`, `relu_t` and the output
  `y_t`.

The model keeps a generated layer as a list of structured declarations
(`Decls.Decl`). Names are a `Role` datatype, and text appears only at the
boundary, in `Names` and `Render`. Both layers are instances of one skeleton
(`Layout.Shape`): a head, the scale components, a sink, the weighted taps,
the sum and `h_t`, and the tail. Properties are proved once about the
skeleton, then carried over to each layer.

Modules:

- `Numerals`: Python's `str(int)` and its inverse.
- `Names`: role names, rendering `<layer>.<role>` and parsing it back.
- `Options`: the default initialisation appended to the per-element-scale
  options.
- `Decls`: declarations, define-before-use and name uniqueness.
- `Memory`: offsets, scale components, taps, the memory sum and the tail.
- `Layout`: the common skeleton.
- `Layer`: configuration errors, `output_name`, `output_dim` and the
  `ref`/`final` duplication.
- `VFsmn`, `CFsmn`: the two layer classes.
- `Render`: the exact text of every line.
- `Emit`: `get_full_config`.

In the table, `B` is `lookback-num`, `F` is `lookhead-num` and `S` is
`look-stride`.

## Model

| member | source | states |
|---|---|---|
| VFsmn.SetDerived | egs/wsj/s5/steps/libs/nnet3/xconfig/fsmn.py:46-48 | a non-positive `dim` becomes the input dim; every other setting is unchanged |
| VFsmn.Check | egs/wsj/s5/steps/libs/nnet3/xconfig/fsmn.py:50-57 | accepted iff `dim > 0` and the self-repair scale is in [0, 1]; a bad dim is reported before a bad scale, and each error carries the offending key and value |
| VFsmn.ConfigureOutcome | egs/wsj/s5/steps/libs/nnet3/xconfig/fsmn.py:46-57 | derivation then validation accepts iff the own or the input dim is positive and the scale is in range; the accepted config differs from the given one only in `dim` |
| VFsmn.DefaultsOutcome | egs/wsj/s5/steps/libs/nnet3/xconfig/fsmn.py:34-57 | the defaults are accepted iff the input dim is positive, and then `dim` is the input dim |
| VFsmn.NamesUnique | egs/wsj/s5/steps/libs/nnet3/xconfig/fsmn.py:124-163 | no two declarations share a name iff `S != 0` or (`B <= 0` and `F <= 1`); a zero stride repeats `U_h_0`/`U_f_0` |
| VFsmn.DefinedExactly | egs/wsj/s5/steps/libs/nnet3/xconfig/fsmn.py:124-163 | every component and node is declared before it is read iff `F >= 1`; otherwise the sum names the never-declared `f_t_<F*S>` |
| VFsmn.PastScaleComponents | egs/wsj/s5/steps/libs/nnet3/xconfig/fsmn.py:127-130 | the history scales are `U_h_<h*S>` for `h` in `range(0, B+1)`, in order, as wide as the input, with the scale options and the l2 constant |
| VFsmn.FutureScaleComponents | egs/wsj/s5/steps/libs/nnet3/xconfig/fsmn.py:131-134 | the lookahead scales are `U_f_<k*S>` for `k` in `range(1, F+1)`, in order |
| VFsmn.WeightingNodes | egs/wsj/s5/steps/libs/nnet3/xconfig/fsmn.py:138-142 | the weighting nodes, in order: `h_t_<o>` reads the input shifted by `-o` through `U_h_<o>`, then `f_t_<o>` reads it shifted by `o` through `U_f_<o>` |
| VFsmn.MemorySum | egs/wsj/s5/steps/libs/nnet3/xconfig/fsmn.py:144-151 | `m_t` is the one no-op node summing every history tap, then `f_t_<k*S>` for `k` in `range(1, F)`, then `f_t_<F*S>` |
| VFsmn.MemoryTermsMatchTaps | egs/wsj/s5/steps/libs/nnet3/xconfig/fsmn.py:139-151 | with `F >= 1` the sum's terms are exactly the declared taps in order; with `F <= 0` the only lookahead term is `f_t_<F*S>` |
| VFsmn.SumTermsOnce | egs/wsj/s5/steps/libs/nnet3/xconfig/fsmn.py:144-151 | the sum names each term once iff `S != 0` or (`B <= 0` and `F <= 1`) |
| VFsmn.HiddenAffine | egs/wsj/s5/steps/libs/nnet3/xconfig/fsmn.py:153 | `h_t` is the one node applying `W_all` to the input appended with `m_t` |
| VFsmn.EndsWithTail | egs/wsj/s5/steps/libs/nnet3/xconfig/fsmn.py:156-162 | the last five declarations are `relu` (width `dim`, the self-repair scale), `relu_t`, `batchnorm` (width `dim`), `y_t` and the End comment |
| VFsmn.AffineWidth | egs/wsj/s5/steps/libs/nnet3/xconfig/fsmn.py:123-136 | `W_all` takes the width of the input plus the no-op sink `m_t` is summed into, which is twice the input dim, and outputs `dim`; the no-op is as wide as the input |
| VFsmn.LineCount | egs/wsj/s5/steps/libs/nnet3/xconfig/fsmn.py:119-163 | the layer is exactly 14 lines plus two per tap (a scale component and its weighting node for every history and lookahead offset): nothing beyond what the source appends |
| VFsmn.Comments | egs/wsj/s5/steps/libs/nnet3/xconfig/fsmn.py:121-162 | the comment lines are exactly, in order, the begin banner with the layer name, `# the transform matrix:`, `# the diagal matrices:`, `# Weighting the history and future :`, `# Sumimg up the history and future :`, the end banner |
| VFsmn.HeadBlock | egs/wsj/s5/steps/libs/nnet3/xconfig/fsmn.py:121-126 | the first four lines are, in order, the begin banner, the transform comment, `W_all` and the scales comment |
| VFsmn.ScaleBlock | egs/wsj/s5/steps/libs/nnet3/xconfig/fsmn.py:127-134 | the lines after the head, up to the sink, are exactly the history scale components and then the lookahead ones |
| VFsmn.SinkBlock | egs/wsj/s5/steps/libs/nnet3/xconfig/fsmn.py:136-142 | right after the scale components come `noop` at the input dim and the weighting comment, then in a row every node that applies a scale component |
| VFsmn.OutputDeclared | egs/wsj/s5/steps/libs/nnet3/xconfig/fsmn.py:62-70 | the default output name `<layer>.y_t` names a declared node, the batch-norm of `relu_t` |
| VFsmn.AuxiliaryDeclared | egs/wsj/s5/steps/libs/nnet3/xconfig/fsmn.py:59-70 | the auxiliary output `m_t` names a declared node |
| VFsmn.OutputDimMatches | egs/wsj/s5/steps/libs/nnet3/xconfig/fsmn.py:72-80 | the default output reports a dim, and that dim is the dim of the declared batch-norm component, which the `y_t` node applies |
| CFsmn.SetDerived | egs/wsj/s5/steps/libs/nnet3/xconfig/fsmn.py:204-208 | a non-positive output dim becomes the input dim and a non-positive projection dim becomes input dim / 4; nothing else changes |
| CFsmn.Check | egs/wsj/s5/steps/libs/nnet3/xconfig/fsmn.py:210-219 | accepted iff both dims are positive and the scale is in [0, 1]; output dim is checked first, then projection dim, then the scale |
| CFsmn.ConfigureOutcome | egs/wsj/s5/steps/libs/nnet3/xconfig/fsmn.py:204-219 | accepted iff the output dim is set or the input dim is positive, the projection dim is set or the input dim is at least 4, and the scale is in range; the accepted values are as derived |
| CFsmn.DefaultsOutcome | egs/wsj/s5/steps/libs/nnet3/xconfig/fsmn.py:188-219 | the defaults are accepted iff the input dim is at least 4; an input dim of 1 to 3 fails on `projection-dim` with value 0 |
| CFsmn.NamesUnique | egs/wsj/s5/steps/libs/nnet3/xconfig/fsmn.py:287-350 | names are unique iff `S != 0` or (`B <= 0` and `F <= 1`), with or without dropout |
| CFsmn.DefinedExactly | egs/wsj/s5/steps/libs/nnet3/xconfig/fsmn.py:287-350 | all of the layer's own names are declared before use iff `F >= 1` |
| CFsmn.PastScaleComponents | egs/wsj/s5/steps/libs/nnet3/xconfig/fsmn.py:297-300 | the history scales are `U_h_<h*S>` for `h` in `range(0, B+1)`, in order, as wide as the projection |
| CFsmn.FutureScaleComponents | egs/wsj/s5/steps/libs/nnet3/xconfig/fsmn.py:301-304 | the lookahead scales are `U_f_<k*S>` for `k` in `range(1, F+1)`, in order, as wide as the projection |
| CFsmn.WeightingNodes | egs/wsj/s5/steps/libs/nnet3/xconfig/fsmn.py:315-327 | the scaled nodes shift `p_t`, history first; with dropout on, each is named `<tap>_pre` |
| CFsmn.DropoutAfterScale | egs/wsj/s5/steps/libs/nnet3/xconfig/fsmn.py:316-322 | with the proportion not -1, the dropout nodes are exactly the taps `h_t_<o>` for every history offset and then `f_t_<o>` for every lookahead offset, each applying the dropout component to its own `h_t_<o>_pre` / `f_t_<o>_pre`; each sits right after that `_pre` node, which applies the same offset's scale component; with the proportion -1 there are none |
| CFsmn.SinkBlock | egs/wsj/s5/steps/libs/nnet3/xconfig/fsmn.py:306-315 | after the five head lines and one scale component per offset come the no-op (projection width), the dropout component when the proportion is not -1, the node `p_t` applying `W_in` to the layer input, and the weighting comment |
| CFsmn.ProjectionNode | egs/wsj/s5/steps/libs/nnet3/xconfig/fsmn.py:313 | `p_t` is declared once, as the node applying `W_in` to the layer input |
| CFsmn.NoDropoutWhenOff | egs/wsj/s5/steps/libs/nnet3/xconfig/fsmn.py:322-327 | with proportion -1 no node applies dropout |
| CFsmn.DropoutComponentDeclared | egs/wsj/s5/steps/libs/nnet3/xconfig/fsmn.py:306-313 | the dropout component is declared exactly when the proportion is not -1, with the projection width and the proportion and per-frame settings, right after the no-op and right before `p_t` |
| CFsmn.MemorySum | egs/wsj/s5/steps/libs/nnet3/xconfig/fsmn.py:329-338 | `m_t` sums `p_t`, then `<resnet>.m_t` exactly when a residual layer is named, then the history taps, then `f_t_<k*S>` for `k` in `range(1, F)` and `f_t_<F*S>` |
| CFsmn.MemoryTermsMatchTaps | egs/wsj/s5/steps/libs/nnet3/xconfig/fsmn.py:315-338 | with `F >= 1` the sum's tap terms are exactly the declared taps; with `F <= 0` the only lookahead term is `f_t_<F*S>` |
| CFsmn.SumTermsOnce | egs/wsj/s5/steps/libs/nnet3/xconfig/fsmn.py:329-338 | with `p_t` and the optional residual first, the sum names each term once iff `S != 0` or (`B <= 0` and `F <= 1`) |
| CFsmn.HiddenAffine | egs/wsj/s5/steps/libs/nnet3/xconfig/fsmn.py:340 | `h_t` is the one node applying `W_out` to `m_t` |
| CFsmn.EndsWithTail | egs/wsj/s5/steps/libs/nnet3/xconfig/fsmn.py:343-349 | the last five declarations are `relu` (the output dim), `relu_t`, `batchnorm` (the output dim), `y_t` and the End comment |
| CFsmn.ProjectionWidths | egs/wsj/s5/steps/libs/nnet3/xconfig/fsmn.py:289-306 | `W_in` maps the input dim to the no-op width, which is the projection dim, and `W_out` maps that width to the output dim |
| CFsmn.LineCount | egs/wsj/s5/steps/libs/nnet3/xconfig/fsmn.py:285-350 | the layer is exactly 16 lines plus two per tap, or with dropout on 17 lines plus three per tap (the extra `_pre` node per tap and the dropout component): nothing beyond what the source appends |
| CFsmn.Comments | egs/wsj/s5/steps/libs/nnet3/xconfig/fsmn.py:287-349 | the comment lines are exactly, in order, the begin banner, `# the transform matrices:`, `# the diagal matrices:`, `# Weighting the history and future :`, `# Sumimg up the history and future :`, the end banner, with or without dropout |
| CFsmn.HeadBlock | egs/wsj/s5/steps/libs/nnet3/xconfig/fsmn.py:287-296 | the first five lines are, in order, the begin banner, the transforms comment, `W_in`, `W_out` and the scales comment |
| CFsmn.ScaleBlock | egs/wsj/s5/steps/libs/nnet3/xconfig/fsmn.py:297-304 | the lines after the head, up to the sink block, are exactly the history scale components and then the lookahead ones |
| CFsmn.TapBlock | egs/wsj/s5/steps/libs/nnet3/xconfig/fsmn.py:315-327 | right after the sink block come, in a row, every node that applies a scale component or the dropout component: one line per offset, or two with dropout on |
| CFsmn.OutputDeclared | egs/wsj/s5/steps/libs/nnet3/xconfig/fsmn.py:224-232 | the default output `<layer>.y_t` names a declared node, the batch-norm of `relu_t` |
| CFsmn.AuxiliaryDeclared | egs/wsj/s5/steps/libs/nnet3/xconfig/fsmn.py:221-232 | the auxiliary output `m_t` names a declared node |
| CFsmn.OutputDimMatches | egs/wsj/s5/steps/libs/nnet3/xconfig/fsmn.py:234-242 | the default output reports a dim, and that dim is the dim of the declared batch-norm component, which the `y_t` node applies |
| Layer.OutputName | egs/wsj/s5/steps/libs/nnet3/xconfig/fsmn.py:62-70 | ok iff no auxiliary output is asked for or it is `m_t`; the name is `<layer>.y_t` or `<layer>.m_t`; any other request fails with that name |
| Layer.OutputDim | egs/wsj/s5/steps/libs/nnet3/xconfig/fsmn.py:72-80 | ok iff no auxiliary output is asked for; `m_t` fails with the unbound `node_name`; any other request fails as unknown |
| Layer.FullConfig | egs/wsj/s5/steps/libs/nnet3/xconfig/fsmn.py:82-89 | every line is emitted for `ref` and then for `final`, in order; the lines for each config are exactly the generated ones |
| Options.PerElementScaleOptions | egs/wsj/s5/steps/libs/nnet3/xconfig/fsmn.py:108-113 | the default `param-mean`/`param-stddev` initialisation is appended iff neither key occurs; the result always contains one of them |
| Options.PerElementScaleOptionsIdempotent | egs/wsj/s5/steps/libs/nnet3/xconfig/fsmn.py:110-113 | adding the default initialisation twice changes nothing the second time |
| Memory.PastOffsets | egs/wsj/s5/steps/libs/nnet3/xconfig/fsmn.py:127 | the history offsets are `h*S` for `h` in `range(0, B+1)` |
| Memory.FutureOffsets | egs/wsj/s5/steps/libs/nnet3/xconfig/fsmn.py:131 | the lookahead offsets are `k*S` for `k` in `range(1, F+1)` |
| Memory.SumFutureOffsetsMatch | egs/wsj/s5/steps/libs/nnet3/xconfig/fsmn.py:146-150 | the sum's lookahead offsets equal the declared ones iff `F >= 1`; otherwise they are the single `F*S` and none is declared |
| Memory.PastDistinct | egs/wsj/s5/steps/libs/nnet3/xconfig/fsmn.py:127-130 | the history offsets are pairwise distinct iff `S != 0` or `B <= 0` |
| Memory.FutureDistinct | egs/wsj/s5/steps/libs/nnet3/xconfig/fsmn.py:131-134 | the lookahead offsets are pairwise distinct iff `S != 0` or `F <= 1` |
| Memory.SumTermsDistinct | egs/wsj/s5/steps/libs/nnet3/xconfig/fsmn.py:145-150 | after distinct non-tap leading terms, the sum's terms are pairwise distinct iff neither offset list repeats |
| Layout.Unique | egs/wsj/s5/steps/libs/nnet3/xconfig/fsmn.py:124-163 | a layer built from a head and sink with unique names and distinct offsets has unique names |
| Layout.UniqueNeedsDistinct | egs/wsj/s5/steps/libs/nnet3/xconfig/fsmn.py:124-163 | conversely, unique names force both offset lists to be distinct |
| Layout.Defined | egs/wsj/s5/steps/libs/nnet3/xconfig/fsmn.py:124-163 | a well-wired layer declares every name before it is read |
| Layout.SumNeedsFuture | egs/wsj/s5/steps/libs/nnet3/xconfig/fsmn.py:144-151 | if the sum reads `f_t_<x>` and the layer is defined before use, then `x` is a declared lookahead offset |
| Layout.EndsWithTail | egs/wsj/s5/steps/libs/nnet3/xconfig/fsmn.py:156-162 | every layer's last five declarations are its tail |
| Layout.DropoutFollowsScaled | egs/wsj/s5/steps/libs/nnet3/xconfig/fsmn.py:316-322 | in any layer every dropout node directly follows the `_pre` node it reads, and is the tap of that node's side and offset, which the `_pre` node scales |
| Layout.DropoutNodes | egs/wsj/s5/steps/libs/nnet3/xconfig/fsmn.py:316-327 | a layer built with dropout has exactly one dropout node per offset, the tap reading its own `_pre` node, history first; one built without has none |
| Layout.SinkAt | egs/wsj/s5/steps/libs/nnet3/xconfig/fsmn.py:297-315 | the sink block starts right after the head and one scale component per offset of each side |
| Layout.NoDropoutWithoutDropout | egs/wsj/s5/steps/libs/nnet3/xconfig/fsmn.py:322-327 | a layer built without dropout has no dropout node |
| Layout.AssembleLength | egs/wsj/s5/steps/libs/nnet3/xconfig/fsmn.py:119-163 | a layer has its head and sink lines, two lines per tap (three with dropout) and eight fixed lines for the sum and tail |
| Layout.SelectComments | egs/wsj/s5/steps/libs/nnet3/xconfig/fsmn.py:144-162 | a layer's comments are those of its head and sink, then the summing comment and the end banner; the scale and tap blocks hold none |
| Layout.HeadAt | egs/wsj/s5/steps/libs/nnet3/xconfig/fsmn.py:119-126 | every layer opens with its head block |
| Layout.ScalesAt | egs/wsj/s5/steps/libs/nnet3/xconfig/fsmn.py:127-134 | between the head and the sink block lie the history scale components and then the lookahead ones |
| Layout.TapsAt | egs/wsj/s5/steps/libs/nnet3/xconfig/fsmn.py:138-142 | the weighting nodes of both sides, history first, follow the sink block directly |
| Layout.SelectTapLines | egs/wsj/s5/steps/libs/nnet3/xconfig/fsmn.py:315-327 | the weighting block holds every scaled and dropout node of a layer, and no other block holds any |
| Names.ParseRoleText | egs/wsj/s5/steps/libs/nnet3/xconfig/fsmn.py:124-163 | every role name parses back to its role |
| Names.RenderNameInjective | egs/wsj/s5/steps/libs/nnet3/xconfig/fsmn.py:124-163 | distinct roles give distinct `<layer>.<role>` names |
| Numerals.IntRoundTrip | egs/wsj/s5/steps/libs/nnet3/xconfig/fsmn.py:138-142 | the decimal text of every offset, `-` included, parses back to the offset |
| Numerals.IntToStringInjective | egs/wsj/s5/steps/libs/nnet3/xconfig/fsmn.py:127-134 | distinct offsets give distinct texts |
| Render.L2Text | egs/wsj/s5/steps/libs/nnet3/xconfig/fsmn.py:114-116 | the option is empty iff the constant is zero; otherwise it starts `l2-regularize=` and ends with a space |
| Render.TrailingJoin | egs/wsj/s5/steps/libs/nnet3/xconfig/fsmn.py:144-150 | writing each term but the last followed by `", "` and then the last term is the terms joined by `", "` |
| Render.SumLine | egs/wsj/s5/steps/libs/nnet3/xconfig/fsmn.py:144-151 | the rendered `Sum(...)` input equals the source's accumulation: `Sum(`, each term but the last with `", "`, the last term, `)` |
| Render.NamesDistinct | egs/wsj/s5/steps/libs/nnet3/xconfig/fsmn.py:120-163 | with unique roles, no two rendered lines declare the same `name=` |
| Render.KindText | egs/wsj/s5/steps/libs/nnet3/xconfig/fsmn.py:123-136 | every component line's settings begin with `type=` |
| Render.LineFields | egs/wsj/s5/steps/libs/nnet3/xconfig/fsmn.py:121-162 | a comment line is its own text; a component line begins `component name=<layer>.<role> type=`; a node line begins `component-node name=<layer>.<role> component=<layer>.<component> ` and ends with a space and `input=<expression>` |
| Emit.VFsmnFullConfig | egs/wsj/s5/steps/libs/nnet3/xconfig/fsmn.py:82-89 | the vFSMN full config pairs each rendered line with `ref` and then with `final`, line by line: entry `2i` is `(ref, line i)` and entry `2i+1` is `(final, line i)`; each config receives exactly the rendered lines |
| Emit.CFsmnFullConfig | egs/wsj/s5/steps/libs/nnet3/xconfig/fsmn.py:244-251 | the same interleaving of `ref` and `final` for the cFSMN layer's rendered lines |
| Emit.NoLookaheadSum | egs/wsj/s5/steps/libs/nnet3/xconfig/fsmn.py:144-151 | with `B = 1`, `F = 0`, `S = 1`, layer `L`, the sum reads `Sum(L.h_t_0, L.h_t_1, L.f_t_0)` |
| Emit.NoLookaheadUndefined | egs/wsj/s5/steps/libs/nnet3/xconfig/fsmn.py:139-151 | that layer reads `f_t_0` without declaring it |

## Left out

- Float text. The text Python prints for a float is not modelled: its `str`
  and its `{:.10f}` format are given to `Render` as a `FloatFormat` argument.
  This covers `l2-regularize`, `dropout-proportion` and `self-repair-scale`.
- Parsing. The base class `XconfigLayerBase` reads the `key=value` line,
  resolves the input descriptor and runs the derive-then-check sequence. It
  is not part of this model. The input arrives as a `Descriptor`, with its
  dim and final string, and `Configure` fixes that order of derivation and
  validation.
- Layer.OutputDim: `output_dim('m_t')` reads `node_name`, which is never
  bound in that function. In Python this raises `NameError`; the model
  returns `UndefinedName("node_name")` and does not guess the intended dim.
- CFsmn.SetDerived: `input_dim/4` is modelled as integer floor division,
  which is Python 2 semantics. Under Python 3 it gives a float, such as 2.5,
  which would then be printed as a dim.
- CFsmn.DefinedExactly: define-before-use covers only the layer's own names.
  The residual `<resnet>.m_t` belongs to another layer and is not checked.
- `resnet-opts` is compared to `''` with `is not`, an identity test. It is
  modelled as "the string is non-empty".
- `self-repair-scale-nonlinearity` has an `is not None` branch. It is
  modelled as always present, since the value is always a float.
- The meaning of the generated network, i.e. what Kaldi computes from these
  lines, is not modelled.
