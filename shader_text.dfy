/**
 * The GLSL program text that `src/wgpu_wrapper.rs` assembles before handing it
 * to the shader compiler: a fixed prefix declaring the output storage and the
 * device uniform, one binding block and one fetch-function block per audio
 * asset, the user's code, and a fixed suffix holding `main`.
 *
 * Each generated block is given twice: as the exact text `format!` produces,
 * and as a structured reading of it (declarations with their set, binding,
 * kind and name; functions with their name, parameter and the texture half
 * they return).  Lemmas show that the two agree and that the binding numbers
 * written into the text can be read back out of it.
 */
module ShaderText {
  import opened Wrappers
  import opened Formatting

  const SHADER_PREFIX: string :=
    "#version 450\nlayout(local_size_x = 1) in;\n\n"
    + "layout(set = 0, binding = 0) buffer OutputStorage {\n\tvec2[] output;\n};\n\n"
    + "layout(set = 0, binding = 1) uniform DeviceInfo {\n\tuint iSampleRate;\n\tuint iBaseFrame;\n};\n"

  const SHADER_SUFFIX: string :=
    "\nvoid main() {\n\tuint idx = gl_GlobalInvocationID.x;\n\tuint frame = iBaseFrame + idx;\n"
    + "\toutput[idx] = mainSound(idx, float(frame) / float(iSampleRate));\n}\n"

  // ------------------------------------------------------------------
  // Binding blocks
  // ------------------------------------------------------------------

  /** `sound_storage_bindingshader(k)`: the exact text, with `k`, `2k` and `2k+1` in decimal. */
  function BindingShader(k: nat): string {
    var i := Decimal(k);
    "layout(set = " + ("1" + (", binding = " + (Decimal(2 * k) + (") " + ("buffer" + (" " + ("AudioTexture" + (i + (" {\n" + (
      "\tvec4[] iAudioTexture" + (i + (";\n" + (
      "};\n" + (
      "layout(set = " + ("1" + (", binding = " + (Decimal(2 * k + 1) + (") " + ("uniform" + (" " + ("AudioTextureInfo" + (i + (" {\n" + (
      "\tuint iChannelSampleRate" + (i + (";\n\tuint channels" + (i + (";\n" + (
      "};\n" + (
      "\t"))))))))))))))))))))))))))))))
  }

  datatype BlockKind = BufferBlock | UniformBlock

  function Keyword(kind: BlockKind): string {
    match kind
    case BufferBlock => "buffer"
    case UniformBlock => "uniform"
  }

  /** A GLSL interface-block declaration `layout(set = group, binding = b) kind Name {\n members };\n`. */
  datatype Declaration = Declaration(group: nat, binding: nat, kind: BlockKind, name: string, members: string)

  /** `layout(set = group, binding = b) `, the part of a declaration that places it, followed by `rest`. */
  function LayoutThen(group: nat, binding: nat, rest: string): string {
    "layout(set = " + (Decimal(group) + (", binding = " + (Decimal(binding) + (") " + rest))))
  }

  /** `kind Name {\n members };\n`, the part of a declaration that defines it, followed by `rest`. */
  function BlockThen(kind: BlockKind, name: string, members: string, rest: string): string {
    Keyword(kind) + (" " + (name + (" {\n" + (members + ("};\n" + rest)))))
  }

  /** The text of `d` followed by `rest`. */
  function DeclarationThen(d: Declaration, rest: string): string {
    LayoutThen(d.group, d.binding, BlockThen(d.kind, d.name, d.members, rest))
  }

  /** A name without spaces and a member list without a closing brace can be read back. */
  predicate Readable(d: Declaration) {
    Avoids(d.name, ' ') && Avoids(d.members, '}')
  }

  function ParseKeyword(s: string): (r: Option<(BlockKind, string)>)
    ensures r.Some? ==> s == Keyword(r.value.0) + r.value.1
  {
    match Expect("buffer", s)
    case Some(rest) => Some((BufferBlock, rest))
    case None =>
      match Expect("uniform", s)
      case Some(rest) => Some((UniformBlock, rest))
      case None => None
  }

  /** Reads `layout(set = N, binding = M) ` at the front of `s`. */
  function ParseLayout(s: string): (r: Option<(nat, nat, string)>) {
    var s1 :- Expect("layout(set = ", s);
    var group :- ParseNat(s1);
    var s2 :- Expect(", binding = ", group.1);
    var binding :- ParseNat(s2);
    var s3 :- Expect(") ", binding.1);
    Some((group.0, binding.0, s3))
  }

  /** Reads ` Name {\n members };\n` at the front of `s`. */
  function ParseNamedBlock(s: string): (r: Option<(string, string, string)>) {
    var s1 :- Expect(" ", s);
    var n := Span(s1, ' ');
    var s2 :- Expect(" {\n", s1[n..]);
    var m := Span(s2, '}');
    var s3 :- Expect("};\n", s2[m..]);
    Some((s1[..n], s2[..m], s3))
  }

  /** Reads one declaration at the front of `s`, returning it and the text after it. */
  function ParseDeclaration(s: string): (r: Option<(Declaration, string)>) {
    var layout :- ParseLayout(s);
    var kind :- ParseKeyword(layout.2);
    var block :- ParseNamedBlock(kind.1);
    Some((Declaration(layout.0, layout.1, kind.0, block.0, block.1), block.2))
  }

  lemma ParseLayoutText(group: nat, binding: nat, rest: string)
    ensures ParseLayout(LayoutThen(group, binding, rest)) == Some((group, binding, rest))
  {
    var t2 := Decimal(binding) + (") " + rest);
    var t1 := Decimal(group) + (", binding = " + t2);
    ExpectLiteral("layout(set = ", t1);
    ParseNatDecimal(group, ", binding = " + t2);
    ExpectLiteral(", binding = ", t2);
    ParseNatDecimal(binding, ") " + rest);
    ExpectLiteral(") ", rest);
  }

  lemma ParseKeywordText(kind: BlockKind, rest: string)
    ensures ParseKeyword(Keyword(kind) + rest) == Some((kind, rest))
  {
    match kind {
      case BufferBlock => ExpectLiteral("buffer", rest);
      case UniformBlock =>
        assert (Keyword(kind) + rest)[0] == 'u';
        ExpectLiteral("uniform", rest);
    }
  }

  lemma ParseNamedBlockText(name: string, members: string, rest: string)
    requires Avoids(name, ' ') && Avoids(members, '}')
    ensures ParseNamedBlock(" " + (name + (" {\n" + (members + ("};\n" + rest))))) == Some((name, members, rest))
  {
    var t2 := members + ("};\n" + rest);
    var t1 := name + (" {\n" + t2);
    ExpectLiteral(" ", t1);
    SpanPrefix(name, " {\n" + t2, ' ');
    assert t1[|name|..] == " {\n" + t2;
    assert t1[..|name|] == name;
    ExpectLiteral(" {\n", t2);
    SpanPrefix(members, "};\n" + rest, '}');
    assert t2[|members|..] == "};\n" + rest;
    assert t2[..|members|] == members;
    ExpectLiteral("};\n", rest);
  }

  /** Every readable declaration is read back from its text, whatever follows it. */
  lemma ParseDeclarationText(d: Declaration, rest: string)
    requires Readable(d)
    ensures ParseDeclaration(DeclarationThen(d, rest)) == Some((d, rest))
  {
    var named := " " + (d.name + (" {\n" + (d.members + ("};\n" + rest))));
    ParseLayoutText(d.group, d.binding, BlockThen(d.kind, d.name, d.members, rest));
    ParseKeywordText(d.kind, named);
    ParseNamedBlockText(d.name, d.members, rest);
  }

  /** Asset `k`'s storage block: buffer `AudioTexture{k}` at binding `2k` of set 1. */
  function TextureDeclaration(k: nat): Declaration {
    Declaration(1, 2 * k, BufferBlock, "AudioTexture" + Decimal(k), "\tvec4[] iAudioTexture" + (Decimal(k) + ";\n"))
  }

  /** Asset `k`'s info block: uniform `AudioTextureInfo{k}` at binding `2k+1` of set 1. */
  function InfoDeclaration(k: nat): Declaration {
    Declaration(1, 2 * k + 1, UniformBlock, "AudioTextureInfo" + Decimal(k),
      "\tuint iChannelSampleRate" + (Decimal(k) + (";\n\tuint channels" + (Decimal(k) + ";\n"))))
  }

  lemma DeclarationsReadable(k: nat)
    ensures Readable(TextureDeclaration(k)) && Readable(InfoDeclaration(k))
  {
    var i := Decimal(k);
    DigitsAvoid(i, ' ');
    DigitsAvoid(i, '}');
    AvoidsConcat("AudioTexture", i, ' ');
    AvoidsConcat("AudioTextureInfo", i, ' ');
    AvoidsConcat(i, ";\n", '}');
    AvoidsConcat("\tvec4[] iAudioTexture", i + ";\n", '}');
    AvoidsConcat(";\n\tuint channels", i + ";\n", '}');
    AvoidsConcat(i, ";\n\tuint channels" + (i + ";\n"), '}');
    AvoidsConcat("\tuint iChannelSampleRate", i + (";\n\tuint channels" + (i + ";\n")), '}');
  }

  /**
   * The binding text of asset `k` is the texture declaration, then the info
   * declaration, then a tab.
   */
  lemma BindingShaderText(k: nat)
    ensures BindingShader(k) == DeclarationThen(TextureDeclaration(k), DeclarationThen(InfoDeclaration(k), "\t"))
  {
    var i := Decimal(k);
    assert Decimal(1) == "1";
    // the info declaration, from its end
    var close2 := "};\n" + "\t";
    var c2 := ";\n\tuint channels" + (i + ";\n");
    Assoc(i, ";\n", close2);
    Assoc(";\n\tuint channels", i + ";\n", close2);
    Assoc(i, c2, close2);
    Assoc("\tuint iChannelSampleRate", i + c2, close2);
    var m2 := "\tuint iChannelSampleRate" + (i + c2);
    Assoc("AudioTextureInfo", i, " {\n" + (m2 + close2));
    // the texture declaration, from its end
    var close1 := "};\n" + DeclarationThen(InfoDeclaration(k), "\t");
    Assoc(i, ";\n", close1);
    Assoc("\tvec4[] iAudioTexture", i + ";\n", close1);
    var m1 := "\tvec4[] iAudioTexture" + (i + ";\n");
    Assoc("AudioTexture", i, " {\n" + (m1 + close1));
  }

  /**
   * The binding text of asset `k` reads as exactly two declarations, both in set 1:
   * the storage buffer `AudioTexture{k}` (holding `vec4[] iAudioTexture{k}`) at
   * binding `2k`, then the uniform `AudioTextureInfo{k}` (holding the rate and the
   * channel count) at binding `2k+1`; only a tab follows.
   */
  lemma BindingShaderDeclares(k: nat)
    ensures var p := ParseDeclaration(BindingShader(k));
      && p.Some? && p.value.0 == TextureDeclaration(k)
      && p.value.0.group == 1 && p.value.0.binding == 2 * k && p.value.0.kind == BufferBlock
      && var q := ParseDeclaration(p.value.1);
         && q.Some? && q.value.0 == InfoDeclaration(k) && q.value.1 == "\t"
         && q.value.0.group == 1 && q.value.0.binding == 2 * k + 1 && q.value.0.kind == UniformBlock
  {
    BindingShaderText(k);
    DeclarationsReadable(k);
    ParseDeclarationText(TextureDeclaration(k), DeclarationThen(InfoDeclaration(k), "\t"));
    ParseDeclarationText(InfoDeclaration(k), "\t");
  }

  /** Different assets declare different binding numbers, and the text shows which. */
  lemma BindingShaderInjective(j: nat, k: nat)
    requires BindingShader(j) == BindingShader(k)
    ensures j == k
  {
    BindingShaderDeclares(j);
    BindingShaderDeclares(k);
  }

  // ------------------------------------------------------------------
  // Fetch functions
  // ------------------------------------------------------------------

  /** `sound_storage_fetchfunction(k)`: the exact text, with `k` in decimal. */
  function FetchFunction(k: nat): string {
    var i := Decimal(k);
    TextureSource(i, TexelFetchSource(i, DFTFetchSource(i)))
  }

  /** The lines of the format string that define `soundTexture{k}`, with `i` for `{0}`, then `rest`. */
  function TextureSource(i: string, rest: string): string {
    "vec2 " + ("soundTexture" + (i + ("(" + ("float time" + (") {\n" + (
      "\tfloat t = time - float(iBaseFrame) / float(iSampleRate);\n\tuint idx = uint(float(" + ("iChannelSampleRate" + (i + (") * t);\n\tfloat p = fract(float(" + ("iChannelSampleRate" + (i + (") * t);\n\treturn " + ("iAudioTexture" + (i + ("[" + ("idx" + ("]." + ("xy" + (" * (1.0 - p) + " + ("iAudioTexture" + (i + ("[" + ("idx + 1" + ("]." + ("xy" + (" * p;\n" + (
      "}\n" + (
      rest))))))))))))))))))))))))))))
  }

  /** The lines that define `soundTexelFetch{k}`, then `rest`. */
  function TexelFetchSource(i: string, rest: string): string {
    "vec2 " + ("soundTexelFetch" + (i + ("(" + ("uint idx" + (") {\n" + (
      "\tuint baseIdx = " + ("iChannelSampleRate" + (i + (" * (iBaseFrame / iSampleRate);\n\treturn " + ("iAudioTexture" + (i + ("[" + ("idx - baseIdx" + ("]." + ("xy" + (";\n" + (
      "}\n" + (
      rest))))))))))))))))))
  }

  /** The lines that define `soundDFTFetch{k}`, the last of the text. */
  function DFTFetchSource(i: string): string {
    "vec2 " + ("soundDFTFetch" + (i + ("(" + ("uint idx" + (") {\n" + (
      "\tuint baseIdx = " + ("iChannelSampleRate" + (i + (" * (iBaseFrame / iSampleRate);\n\treturn " + ("iAudioTexture" + (i + ("[" + ("idx - baseIdx" + ("]." + ("zw" + (";\n" + (
      "}\n")))))))))))))))))
  }

  /** The three accessors generated per asset. */
  datatype Accessor = SoundTexture | SoundTexelFetch | SoundDFTFetch

  /** Which half of a texel an accessor returns. */
  datatype Half = XY | ZW

  function AccessorName(f: Accessor): string {
    match f
    case SoundTexture => "soundTexture"
    case SoundTexelFetch => "soundTexelFetch"
    case SoundDFTFetch => "soundDFTFetch"
  }

  function AccessorParameter(f: Accessor): string {
    if f == SoundTexture then "float time" else "uint idx"
  }

  function HalfOf(f: Accessor): Half {
    if f == SoundDFTFetch then ZW else XY
  }

  function HalfText(h: Half): string {
    match h
    case XY => "xy"
    case ZW => "zw"
  }

  /** The per-asset identifiers an accessor of asset `k` may use. */
  function TextureName(k: nat): string {
    "iAudioTexture" + Decimal(k)
  }

  function RateName(k: nat): string {
    "iChannelSampleRate" + Decimal(k)
  }

  /** `iAudioTexture{k}[index].half`, followed by `rest`. */
  function TexelReadThen(k: nat, index: string, h: Half, rest: string): string {
    TextureName(k) + ("[" + (index + ("]." + (HalfText(h) + rest))))
  }

  /**
   * An accessor's body, followed by `rest`.  It refers to asset `k` only through
   * `TextureName(k)` and `RateName(k)`; everything else is the shared device
   * uniform (`iBaseFrame`, `iSampleRate`) or a local.
   */
  function BodyThen(f: Accessor, k: nat, rest: string): string {
    match f
    case SoundTexture =>
      "\tfloat t = time - float(iBaseFrame) / float(iSampleRate);\n\tuint idx = uint(float("
      + (RateName(k) + (") * t);\n\tfloat p = fract(float("
      + (RateName(k) + (") * t);\n\treturn "
      + TexelReadThen(k, "idx", XY, " * (1.0 - p) + " + TexelReadThen(k, "idx + 1", XY, " * p;\n" + rest))))))
    case _ =>
      "\tuint baseIdx = " + (RateName(k) + (" * (iBaseFrame / iSampleRate);\n\treturn "
      + TexelReadThen(k, "idx - baseIdx", HalfOf(f), ";\n" + rest)))
  }

  /** `vec2 name{k}(parameter) {\n body }\n`, followed by `rest`. */
  function AccessorThen(f: Accessor, k: nat, rest: string): string {
    "vec2 " + (AccessorName(f) + (Decimal(k) + ("(" + (AccessorParameter(f) + (") {\n" + BodyThen(f, k, "}\n" + rest))))))
  }

  /** A rate name written out, followed by `rest`. */
  lemma RateText(k: nat, rest: string)
    ensures "iChannelSampleRate" + (Decimal(k) + rest) == RateName(k) + rest
  {
    Assoc("iChannelSampleRate", Decimal(k), rest);
  }

  /** A texel read written out, followed by `rest`. */
  lemma ReadText(k: nat, index: string, h: Half, rest: string)
    ensures "iAudioTexture" + (Decimal(k) + ("[" + (index + ("]." + (HalfText(h) + rest))))) == TexelReadThen(k, index, h, rest)
  {
    Assoc("iAudioTexture", Decimal(k), "[" + (index + ("]." + (HalfText(h) + rest))));
  }

  /** The first part of the fetch text is the interpolating accessor `soundTexture{k}`. */
  lemma SoundTextureText(k: nat, rest: string)
    ensures TextureSource(Decimal(k), rest)
      == AccessorThen(SoundTexture, k, rest)
  {
    var read2 := TexelReadThen(k, "idx + 1", XY, " * p;\n" + ("}\n" + rest));
    ReadText(k, "idx + 1", XY, " * p;\n" + ("}\n" + rest));
    var read1 := TexelReadThen(k, "idx", XY, " * (1.0 - p) + " + read2);
    ReadText(k, "idx", XY, " * (1.0 - p) + " + read2);
    var r2 := ") * t);\n\treturn " + read1;
    RateText(k, r2);
    var r3 := ") * t);\n\tfloat p = fract(float(" + (RateName(k) + r2);
    RateText(k, r3);
  }

  /** The second part is the raw accessor `soundTexelFetch{k}`, which reads the `.xy` half. */
  lemma TexelFetchText(k: nat, rest: string)
    ensures TexelFetchSource(Decimal(k), rest)
      == AccessorThen(SoundTexelFetch, k, rest)
  {
    var read := TexelReadThen(k, "idx - baseIdx", XY, ";\n" + ("}\n" + rest));
    ReadText(k, "idx - baseIdx", XY, ";\n" + ("}\n" + rest));
    RateText(k, " * (iBaseFrame / iSampleRate);\n\treturn " + read);
  }

  /** The third and last part is the raw accessor `soundDFTFetch{k}`, which reads the `.zw` half. */
  lemma DFTFetchText(k: nat)
    ensures DFTFetchSource(Decimal(k))
      == AccessorThen(SoundDFTFetch, k, "")
  {
    assert "}\n" + "" == "}\n";
    var read := TexelReadThen(k, "idx - baseIdx", ZW, ";\n" + "}\n");
    ReadText(k, "idx - baseIdx", ZW, ";\n" + "}\n");
    RateText(k, " * (iBaseFrame / iSampleRate);\n\treturn " + read);
  }

  /**
   * The fetch text of asset `k` is exactly its three accessors in order:
   * `soundTexture{k}` and `soundTexelFetch{k}` return the `.xy` half of a texel,
   * `soundDFTFetch{k}` the `.zw` half; all three read only asset `k`'s texture
   * and rate.
   */
  lemma FetchFunctionAccessors(k: nat)
    ensures FetchFunction(k)
      == AccessorThen(SoundTexture, k, AccessorThen(SoundTexelFetch, k, AccessorThen(SoundDFTFetch, k, "")))
  {
    var dft := AccessorThen(SoundDFTFetch, k, "");
    var texel := AccessorThen(SoundTexelFetch, k, dft);
    DFTFetchText(k);
    TexelFetchText(k, dft);
    SoundTextureText(k, texel);
  }

  // ------------------------------------------------------------------
  // The whole program (`read_source`)
  // ------------------------------------------------------------------

  /** `block(0) + block(1) + ... + block(n - 1)`. */
  function Blocks(block: nat -> string, n: nat): (s: string)
    decreases n
  {
    if n == 0 then "" else Blocks(block, n - 1) + block(n - 1)
  }

  /** Block `k` sits right after blocks `0..k-1`, for every `k < n`. */
  lemma {:induction false} BlockAt(block: nat -> string, n: nat, k: nat)
    requires k < n
    ensures |Blocks(block, k + 1)| <= |Blocks(block, n)|
    ensures Blocks(block, n)[..|Blocks(block, k + 1)|] == Blocks(block, k + 1)
    ensures Blocks(block, n)[|Blocks(block, k)|..|Blocks(block, k + 1)|] == block(k)
    decreases n
  {
    if k + 1 < n {
      BlockAt(block, n - 1, k);
      var p := Blocks(block, n - 1);
      assert Blocks(block, n) == p + block(n - 1);
      assert (p + block(n - 1))[..|Blocks(block, k + 1)|] == p[..|Blocks(block, k + 1)|];
    } else {
      assert Blocks(block, n) == Blocks(block, k) + block(k);
    }
  }

  /** A prefix, a first pass of `n` blocks, a second pass of `n` blocks, the code and a suffix, in that order. */
  function Assemble(prefix: string, first: nat -> string, second: nat -> string, code: string, suffix: string, n: nat): string {
    prefix + Blocks(first, n) + Blocks(second, n) + code + suffix
  }

  /** The text `read_source` hands to the compiler for `n` assets. */
  function ProgramText(code: string, n: nat): string {
    Assemble(SHADER_PREFIX, BindingShader, FetchFunction, code, SHADER_SUFFIX, n)
  }

  /** One `(0..n).for_each(|idx| code_buf += &block(idx))` pass of `read_source`. */
  method AppendBlocks(start: string, block: nat -> string, n: nat) returns (text: string)
    ensures text == start + Blocks(block, n)
  {
    text := start;
    var idx := 0;
    while idx < n
      invariant 0 <= idx <= n
      invariant text == start + Blocks(block, idx)
    {
      Assoc(start, Blocks(block, idx), block(idx));
      text := text + block(idx);
      idx := idx + 1;
    }
  }

  /** `read_source`'s text assembly: the prefix, two passes over the asset indices, then the code and the suffix. */
  method ReadSource(code: string, n: nat) returns (text: string)
    ensures text == ProgramText(code, n)
  {
    text := AppendBlocks(SHADER_PREFIX, BindingShader, n);
    text := AppendBlocks(text, FetchFunction, n);
    text := text + code + SHADER_SUFFIX;
  }

  /** A slice inside the left operand of a concatenation. */
  lemma SliceLeft(a: string, b: string, lo: nat, hi: nat)
    requires lo <= hi <= |a|
    ensures (a + b)[lo..hi] == a[lo..hi]
  {
  }

  /** A slice inside the right operand of a concatenation. */
  lemma SliceRight(a: string, b: string, lo: nat, hi: nat)
    requires lo <= hi <= |b|
    ensures (a + b)[|a| + lo..|a| + hi] == b[lo..hi]
  {
  }

  /** The prefix opens an assembled text, and the code and the suffix close it. */
  lemma AssemblyEnds(prefix: string, first: nat -> string, second: nat -> string, code: string, suffix: string, n: nat)
    ensures var t := Assemble(prefix, first, second, code, suffix, n);
      var f := |prefix| + |Blocks(first, n)| + |Blocks(second, n)|;
      && |t| == f + |code| + |suffix|
      && t[..|prefix|] == prefix
      && t[f..f + |code|] == code
      && t[f + |code|..] == suffix
  {
    var head := prefix + Blocks(first, n) + Blocks(second, n);
    SliceLeft(head + code, suffix, 0, |prefix|);
    SliceLeft(head, code, 0, |prefix|);
    SliceLeft(prefix + Blocks(first, n), Blocks(second, n), 0, |prefix|);
    SliceLeft(prefix, Blocks(first, n), 0, |prefix|);
    SliceLeft(head + code, suffix, |head|, |head| + |code|);
    SliceRight(head, code, 0, |code|);
    SliceRight(head + code, suffix, 0, |suffix|);
  }

  /** Block `k` of a pass lies after what precedes the pass and after blocks `0..k-1` of the pass. */
  lemma PassBlock(before: string, block: nat -> string, after: string, n: nat, k: nat)
    requires k < n
    ensures var lo := |before| + |Blocks(block, k)|;
      var hi := |before| + |Blocks(block, k + 1)|;
      && lo <= hi <= |before| + |Blocks(block, n)|
      && (before + Blocks(block, n) + after)[lo..hi] == block(k)
  {
    BlockAt(block, n, k);
    var lo, hi := |Blocks(block, k)|, |Blocks(block, k + 1)|;
    SliceRight(before, Blocks(block, n), lo, hi);
    SliceLeft(before + Blocks(block, n), after, |before| + lo, |before| + hi);
  }

  /** In an assembled text, block `k` of the first pass follows the prefix and blocks `0..k-1` of that pass. */
  lemma AssemblyFirstPass(prefix: string, first: nat -> string, second: nat -> string, code: string, suffix: string, n: nat, k: nat)
    requires k < n
    ensures var t := Assemble(prefix, first, second, code, suffix, n);
      var lo := |prefix| + |Blocks(first, k)|;
      var hi := |prefix| + |Blocks(first, k + 1)|;
      && lo <= hi <= |prefix| + |Blocks(first, n)|
      && t[lo..hi] == first(k)
  {
    var head := prefix + Blocks(first, n);
    PassBlock(prefix, first, Blocks(second, n) + code + suffix, n, k);
    Assoc(head, Blocks(second, n), code);
    Assoc(head, Blocks(second, n) + code, suffix);
  }

  /** In an assembled text, block `k` of the second pass follows the whole first pass and blocks `0..k-1` of its own. */
  lemma AssemblySecondPass(prefix: string, first: nat -> string, second: nat -> string, code: string, suffix: string, n: nat, k: nat)
    requires k < n
    ensures var t := Assemble(prefix, first, second, code, suffix, n);
      var b := |prefix| + |Blocks(first, n)|;
      var lo := b + |Blocks(second, k)|;
      var hi := b + |Blocks(second, k + 1)|;
      && lo <= hi <= b + |Blocks(second, n)|
      && t[lo..hi] == second(k)
  {
    var head := prefix + Blocks(first, n);
    PassBlock(head, second, code + suffix, n, k);
    Assoc(head + Blocks(second, n), code, suffix);
  }
}
