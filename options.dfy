/** The option list handed to config.LoadDefaultConfig, and the `opts` accumulator that builds it. */
module Options {
  import opened Strings
  import opened Aws

  /** DefaultRegion, the package-wide default region. */
  const DefaultRegion: Str := "us-east-1"

  /**
   * Go's built-in copy(dst, src) on slices: it overwrites the first min(len(dst), len(src))
   * elements of dst and never grows it.
   */
  function GoCopy<T>(dst: seq<T>, src: seq<T>): (r: seq<T>)
    ensures |r| == |dst|
    ensures forall i :: 0 <= i < |r| ==> r[i] == (if i < |src| then src[i] else dst[i])
  {
    if |src| < |dst| then src + dst[|src|..] else src[..|dst|]
  }

  /** The options every load of the package asks for, in the order it appends them. */
  function LoadOptionsFor(region: Str, credentials: Credentials): seq<LoadOption> {
    [WithDefaultRegion(DefaultRegion)]
    + (if region != "" then [WithRegion(region)] else [])
    + [WithStaticCredentials(credentials)]
  }

  /**
   * What the accumulator holds once the package's options are added: Go's copy of the
   * caller's options into the nil slice, then the package's own options.
   */
  function CollectedOptions(optFns: seq<LoadOption>, region: Str, credentials: Credentials): seq<LoadOption> {
    GoCopy([], optFns) + LoadOptionsFor(region, credentials)
  }

  /** The copy into the nil slice keeps nothing, so the caller's options never reach the list. */
  lemma CallerOptionsDropped(optFns: seq<LoadOption>, region: Str, credentials: Credentials)
    ensures CollectedOptions(optFns, region, credentials) == LoadOptionsFor(region, credentials)
  {
  }

  /**
   * The shape of the list: the default region first, a region override only when there is
   * a region, the static credentials last, and no option a caller supplied.
   */
  lemma LoadOptionsShape(region: Str, credentials: Credentials)
    ensures var o := LoadOptionsFor(region, credentials);
      && |o| == (if region == "" then 2 else 3)
      && o[0] == WithDefaultRegion(DefaultRegion)
      && (region != "" ==> o[1] == WithRegion(region))
      && o[|o| - 1] == WithStaticCredentials(credentials)
      && (forall i :: 0 <= i < |o| ==> !o[i].CallerOption?)
      && (WithRegion(region) in o <==> region != "")
  {
  }

  /** opts: the slice of option functions being collected. */
  class Opts {
    var fns: seq<LoadOption>

    /** `var o opts`: fns is a nil slice. */
    constructor ()
      ensures fns == []
    {
      fns := [];
    }

    /** opts.add: append the given options. */
    method Add(more: seq<LoadOption>)
      modifies this
      ensures fns == old(fns) + more
    {
      fns := fns + more;
    }

    /** copy(o.fns, src) */
    method CopyFrom(src: seq<LoadOption>)
      modifies this
      ensures fns == GoCopy(old(fns), src)
    {
      fns := GoCopy(fns, src);
    }
  }

  /**
   * The option-list construction that opens both login paths: copy the caller's options
   * into the fresh accumulator, then add the default region, the region override and the
   * credentials. The copy is into a nil slice, so it keeps nothing of `optFns`.
   */
  method BuildLoadOptions(optFns: seq<LoadOption>, region: Str, credentials: Credentials)
    returns (fns: seq<LoadOption>)
    ensures fns == CollectedOptions(optFns, region, credentials)
    ensures fns == LoadOptionsFor(region, credentials)
    ensures |fns| == (if region == "" then 2 else 3)
    ensures forall i :: 0 <= i < |fns| ==> !fns[i].CallerOption?
  {
    var o := new Opts();
    o.CopyFrom(optFns);
    o.Add([WithDefaultRegion(DefaultRegion)]);
    if region != "" {
      o.Add([WithRegion(region)]);
    }
    o.Add([WithStaticCredentials(credentials)]);
    fns := o.fns;
  }
}
