/**
 * The view's pure decision logic: which sources the next shader list is built from, which
 * parameter set each built shader receives, and what a built shader is.
 */
module ShaderSelection {
  import opened Optional
  import opened Params
  import opened Shaders

  /** A pair of raw-resource ids; a missing one falls back to the library default. */
  datatype ShaderRawResId = ShaderRawResId(vertex: Option<int>, fragment: Option<int>)

  /** A pair of shader code strings; a missing one is the empty string. */
  datatype ShaderCode = ShaderCode(vertex: Option<string>, fragment: Option<string>)

  /** What compiling a source yields: the program handle and whether it linked. */
  datatype Compiled = Compiled(program: int, isReady: bool)

  function OrEmpty(s: Option<string>): string {
    s.GetOr("")
  }

  /** `shaderCodes.map { create(vertex.orEmpty(), fragment.orEmpty()) }` */
  function CodeSources(codes: seq<ShaderCode>): (r: seq<Source>)
    ensures |r| == |codes|
    ensures forall i :: 0 <= i < |codes| ==>
      && r[i].FromCode?
      && (codes[i].vertex.Some? ==> r[i].vertexCode == codes[i].vertex.value)
      && (codes[i].vertex.None? ==> r[i].vertexCode == "")
      && (codes[i].fragment.Some? ==> r[i].fragmentCode == codes[i].fragment.value)
      && (codes[i].fragment.None? ==> r[i].fragmentCode == "")
  {
    if |codes| == 0 then []
    else
      var last := codes[|codes| - 1];
      CodeSources(codes[..|codes| - 1]) + [FromCode(OrEmpty(last.vertex), OrEmpty(last.fragment))]
  }

  /** `shaderRawResIds.map { create(vertex ?: defaultVertex, fragment ?: defaultFragment) }` */
  function RawSources(ids: seq<ShaderRawResId>, defaultVertex: int, defaultFragment: int): (r: seq<Source>)
    ensures |r| == |ids|
    ensures forall i :: 0 <= i < |ids| ==>
      && r[i].FromRawResources?
      && (ids[i].vertex.Some? ==> r[i].vertexResource == ids[i].vertex.value)
      && (ids[i].vertex.None? ==> r[i].vertexResource == defaultVertex)
      && (ids[i].fragment.Some? ==> r[i].fragmentResource == ids[i].fragment.value)
      && (ids[i].fragment.None? ==> r[i].fragmentResource == defaultFragment)
  {
    if |ids| == 0 then []
    else
      var last := ids[|ids| - 1];
      RawSources(ids[..|ids| - 1], defaultVertex, defaultFragment)
        + [FromRawResources(last.vertex.GetOr(defaultVertex), last.fragment.GetOr(defaultFragment))]
  }

  /**
   * The builders' sources: code strings whenever any are given, raw resources otherwise; the
   * list is as long as the list it came from.
   */
  function SelectSources(codes: seq<ShaderCode>, ids: seq<ShaderRawResId>, defaultVertex: int, defaultFragment: int): (r: seq<Source>)
    ensures |codes| > 0 ==> |r| == |codes| && forall i :: 0 <= i < |r| ==>
      r[i] == FromCode(codes[i].vertex.GetOr(""), codes[i].fragment.GetOr(""))
    ensures |codes| == 0 ==> |r| == |ids| && forall i :: 0 <= i < |r| ==>
      r[i] == FromRawResources(ids[i].vertex.GetOr(defaultVertex), ids[i].fragment.GetOr(defaultFragment))
  {
    if |codes| > 0 then CodeSources(codes) else RawSources(ids, defaultVertex, defaultFragment)
  }

  /** `shaderParams.getOrNull(index)` */
  function ParamsAt(params: seq<ParamSet>, index: nat): (r: Option<ParamSet>)
    ensures r.Some? <==> index < |params|
    ensures r.Some? ==> r.value == params[index]
  {
    if index < |params| then Some(params[index]) else None
  }

  /** The builder keeps its own (empty) parameter set unless a set is given for its index. */
  function BuilderParams(params: seq<ParamSet>, index: nat): ParamSet {
    ParamsAt(params, index).GetOr(map[])
  }

  function Build(id: nat, source: Source, params: ParamSet, compile: Source -> Compiled): Shader {
    Shader(id, source, compile(source).program, compile(source).isReady, params)
  }

  /** The list `initShaders` builds, the shaders numbered from `firstId`. */
  function Built(sources: seq<Source>, params: seq<ParamSet>, compile: Source -> Compiled, firstId: nat): seq<Shader> {
    seq(|sources|, i requires 0 <= i < |sources| => Build(firstId + i, sources[i], BuilderParams(params, i), compile))
  }

  /**
   * Built shader `i` comes from source `i`, receives parameter set `i` when there is one and
   * the builder's empty set otherwise, and has a fresh identity at or above `firstId`.
   */
  lemma BuiltShaders(sources: seq<Source>, params: seq<ParamSet>, compile: Source -> Compiled, firstId: nat)
    ensures var r := Built(sources, params, compile, firstId);
      && |r| == |sources|
      && forall i :: 0 <= i < |r| ==>
        && r[i].source == sources[i]
        && r[i].id == firstId + i
        && r[i].program == compile(sources[i]).program
        && r[i].isReady == compile(sources[i]).isReady
        && (i < |params| ==> r[i].params == params[i])
        && (i >= |params| ==> r[i].params == map[])
  {
  }

  /** Parameter sets beyond the number of sources are never used. */
  lemma SurplusParamsIgnored(sources: seq<Source>, params: seq<ParamSet>, compile: Source -> Compiled, firstId: nat)
    requires |params| >= |sources|
    ensures Built(sources, params, compile, firstId) == Built(sources, params[..|sources|], compile, firstId)
  {
  }
}
