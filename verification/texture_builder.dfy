/**
 * The proj-2 texture builder: the loader chosen by the texture kind, the filter names
 * checked against the renderer's filter tables, the explicit mipmap sources collected
 * from the eight optional slots, and the rule deciding whether mipmaps are generated.
 */
module TextureBuilder {
  import opened Wrappers
  import opened SceneGraph

  /** The renderer's texture filters. */
  datatype Filter =
    | NearestFilter
    | LinearFilter
    | NearestMipmapNearestFilter
    | NearestMipmapLinearFilter
    | LinearMipmapNearestFilter
    | LinearMipmapLinearFilter

  /** The name a scene file uses for a filter. */
  function FilterName(f: Filter): string
  {
    match f
    case NearestFilter => "NearestFilter"
    case LinearFilter => "LinearFilter"
    case NearestMipmapNearestFilter => "NearestMipmapNearestFilter"
    case NearestMipmapLinearFilter => "NearestMipmapLinearFilter"
    case LinearMipmapNearestFilter => "LinearMipmapNearestFilter"
    case LinearMipmapLinearFilter => "LinearMipmapLinearFilter"
  }

  /** Filters that apply when a texel covers more than a pixel: no mipmap variants. */
  predicate IsMagnification(f: Filter)
  {
    f == NearestFilter || f == LinearFilter
  }

  /** The minification table: all six filters by name. */
  function MinFilterOf(name: string): (r: Option<Filter>)
    ensures r.Some? ==> FilterName(r.value) == name
  {
    if name == "NearestFilter" then Some(NearestFilter)
    else if name == "LinearFilter" then Some(LinearFilter)
    else if name == "NearestMipmapNearestFilter" then Some(NearestMipmapNearestFilter)
    else if name == "NearestMipmapLinearFilter" then Some(NearestMipmapLinearFilter)
    else if name == "LinearMipmapNearestFilter" then Some(LinearMipmapNearestFilter)
    else if name == "LinearMipmapLinearFilter" then Some(LinearMipmapLinearFilter)
    else None
  }

  /** The magnification table: the two filters without mipmaps, by name. */
  function MagFilterOf(name: string): (r: Option<Filter>)
    ensures r.Some? ==> FilterName(r.value) == name && IsMagnification(r.value)
  {
    if name == "NearestFilter" then Some(NearestFilter)
    else if name == "LinearFilter" then Some(LinearFilter)
    else None
  }

  /** Every filter's name is accepted for minification, and only magnification filters' names for magnification. */
  lemma FilterNamesRoundTrip(f: Filter)
    ensures MinFilterOf(FilterName(f)) == Some(f)
    ensures MagFilterOf(FilterName(f)) == (if IsMagnification(f) then Some(f) else None)
  {
  }

  /** A name is accepted exactly when it is the name of a filter of the right kind. */
  lemma FilterNamesExact(name: string)
    ensures MinFilterOf(name).Some? <==> exists f :: FilterName(f) == name
    ensures MagFilterOf(name).Some? <==> exists f :: FilterName(f) == name && IsMagnification(f)
  {
    if MinFilterOf(name).None? {
      forall f ensures FilterName(f) != name {
        FilterNamesRoundTrip(f);
      }
    }
    if MagFilterOf(name).None? {
      forall f | IsMagnification(f) ensures FilterName(f) != name {
        FilterNamesRoundTrip(f);
      }
    }
  }

  /** Where the texture's image comes from. */
  datatype Source = ImageFile(path: string) | VideoElement(path: string)

  datatype Wrapping = ClampToEdgeWrapping | RepeatWrapping | MirroredRepeatWrapping

  /**
   * A built texture. `mipmaps` lists the sources of the explicit mipmap images; it
   * keeps its default, empty, when mipmaps are generated.
   */
  datatype Texture = Texture(
    name: string, source: Source, anisotropy: real,
    magFilter: Filter, minFilter: Filter,
    generateMipmaps: bool, mipmaps: seq<string>,
    wrapS: Wrapping, wrapT: Wrapping)

  /** The eight optional mipmap slots, level 0 first. */
  function MipmapSlots(spec: TextureSpec): seq<Option<string>>
  {
    [spec.mipmap0, spec.mipmap1, spec.mipmap2, spec.mipmap3,
     spec.mipmap4, spec.mipmap5, spec.mipmap6, spec.mipmap7]
  }

  /** The values of the filled slots, in slot order; an absent slot contributes nothing. */
  function Present(slots: seq<Option<string>>): (r: seq<string>)
    ensures |r| <= |slots|
  {
    if slots == [] then []
    else (if slots[0].Some? then [slots[0].value] else []) + Present(slots[1..])
  }

  /** Number of filled slots. */
  function CountPresent(slots: seq<Option<string>>): nat
  {
    if slots == [] then 0 else (if slots[0].Some? then 1 else 0) + CountPresent(slots[1..])
  }

  /** Collecting is a homomorphism: the sources of two runs of slots are concatenated. */
  lemma {:induction false} PresentAppend(a: seq<Option<string>>, b: seq<Option<string>>)
    ensures Present(a + b) == Present(a) + Present(b)
  {
    if a != [] {
      assert (a + b)[1..] == a[1..] + b;
      PresentAppend(a[1..], b);
    } else {
      assert a + b == b;
    }
  }

  /** One source per filled slot, and every source comes from a slot. */
  lemma {:induction false} PresentCount(slots: seq<Option<string>>)
    ensures |Present(slots)| == CountPresent(slots)
    ensures forall x :: x in Present(slots) ==> Some(x) in slots
  {
    if slots != [] {
      PresentCount(slots[1..]);
      forall x | x in Present(slots) ensures Some(x) in slots {
        if x in Present(slots[1..]) {
          assert Some(x) in slots[1..];
        }
      }
    }
  }

  /** No explicit sources exactly when every slot is empty. */
  lemma {:induction false} PresentEmpty(slots: seq<Option<string>>)
    ensures Present(slots) == [] <==> forall i :: 0 <= i < |slots| ==> slots[i].None?
  {
    if slots != [] {
      PresentEmpty(slots[1..]);
      assert forall i :: 1 <= i < |slots| ==> slots[i] == slots[1..][i - 1];
    }
  }

  /** Mipmaps are generated when asked for, or when no explicit mipmap is given. */
  function GenerateMipmaps(mipmaps: bool, sources: seq<string>): bool
  {
    mipmaps || |sources| == 0
  }

  /** The texture builder. */
  function BuildTexture(spec: TextureSpec): (r: Result<Texture, Error>)
    ensures r.Err? <==> MinFilterOf(spec.minFilter).None? || MagFilterOf(spec.magFilter).None?
    ensures r.Err? ==> r.error == InvalidFilter
    ensures r.Ok? ==> FilterName(r.value.minFilter) == spec.minFilter
    ensures r.Ok? ==> FilterName(r.value.magFilter) == spec.magFilter && IsMagnification(r.value.magFilter)
    ensures r.Ok? ==> r.value.name == spec.id && r.value.anisotropy == spec.anisotropy
    ensures r.Ok? ==> r.value.source.path == spec.filepath && (r.value.source.VideoElement? <==> spec.isVideo)
    ensures r.Ok? ==> r.value.wrapS == RepeatWrapping && r.value.wrapT == RepeatWrapping
    ensures r.Ok? ==> (r.value.generateMipmaps <==> spec.mipmaps || forall i :: 0 <= i < 8 ==> MipmapSlots(spec)[i].None?)
    ensures r.Ok? && !r.value.generateMipmaps ==> |r.value.mipmaps| == CountPresent(MipmapSlots(spec))
  {
    var source := if spec.isVideo then VideoElement(spec.filepath) else ImageFile(spec.filepath);
    var minFilter := MinFilterOf(spec.minFilter);
    var magFilter := MagFilterOf(spec.magFilter);
    if minFilter.None? || magFilter.None? then Err(InvalidFilter)
    else
      var sources := Present(MipmapSlots(spec));
      PresentEmpty(MipmapSlots(spec));
      PresentCount(MipmapSlots(spec));
      var generate := GenerateMipmaps(spec.mipmaps, sources);
      Ok(Texture(
        spec.id, source, spec.anisotropy, magFilter.value, minFilter.value,
        generate, if generate then [] else sources,
        RepeatWrapping, RepeatWrapping))
  }

  /** A source is kept by the flattening exactly when some slot holds it. */
  lemma {:induction false} PresentContains(slots: seq<Option<string>>)
    ensures forall x :: x in Present(slots) <==> exists i :: 0 <= i < |slots| && slots[i] == Some(x)
  {
    if slots != [] {
      PresentContains(slots[1..]);
      assert forall i :: 1 <= i < |slots| ==> slots[i] == slots[1..][i - 1];
      forall x | exists i :: 0 <= i < |slots| && slots[i] == Some(x)
        ensures x in Present(slots)
      {
        var i :| 0 <= i < |slots| && slots[i] == Some(x);
        if i > 0 {
          assert slots[1..][i - 1] == Some(x);
        }
      }
    }
  }

  /**
   * The explicit mipmap images are the filled slots in slot order, mipmap0 first, and a
   * source is among them exactly when some slot holds it.
   */
  lemma MipmapsInSlotOrder(spec: TextureSpec)
    requires BuildTexture(spec).Ok? && !BuildTexture(spec).value.generateMipmaps
    ensures BuildTexture(spec).value.mipmaps == Present(MipmapSlots(spec))
    ensures forall x :: x in BuildTexture(spec).value.mipmaps <==>
              exists i :: 0 <= i < |MipmapSlots(spec)| && MipmapSlots(spec)[i] == Some(x)
  {
    PresentContains(MipmapSlots(spec));
  }
}
