/** Fetched sheets and unnamed layers: an imported text is wrapped whole, so unlike the walk over the
    page's own sheets a fetch never cuts a layer in two. */
module SheetLayers {
  import opened StyleLayers
  import opened SheetFetch

  /** The unnamed layers that hold a rule in the tree of imports below an address. */
  function TreeLayers(w: Web, url: string, depth: nat): nat
    requires depth <= MAX_IMPORT_DEPTH
    decreases MAX_IMPORT_DEPTH - depth, |ImportsOf(w, url)| + 1
  {
    ImportsLayers(w, url, 0, depth) + Layers(RestOf(w, url))
  }

  function ImportsLayers(w: Web, url: string, k: nat, depth: nat): nat
    requires depth <= MAX_IMPORT_DEPTH && k <= |ImportsOf(w, url)|
    decreases MAX_IMPORT_DEPTH - depth, |ImportsOf(w, url)| - k
  {
    if k == |ImportsOf(w, url)| || depth == MAX_IMPORT_DEPTH then 0
    else ImportLayers(w, url, k, depth) + ImportsLayers(w, url, k + 1, depth)
  }

  /** One import: the layers below it, and the unnamed one it may itself open. */
  function ImportLayers(w: Web, url: string, k: nat, depth: nat): nat
    requires depth < MAX_IMPORT_DEPTH && k < |ImportsOf(w, url)|
    decreases MAX_IMPORT_DEPTH - depth, 0
  {
    TreeLayers(w, Target(w, url, k), depth + 1)
    + if TreeMeaning(w, Target(w, url, k), depth + 1, []) != [] then AnonymousIn(ConditionsOf(w, url, k)) else 0
  }

  lemma {:induction false} FetchKeepsLayers(w: Web, url: string, depth: nat)
    requires depth <= MAX_IMPORT_DEPTH && Direct(w, url, depth).Some?
    ensures Layers(Direct(w, url, depth).value) == TreeLayers(w, url, depth)
    decreases MAX_IMPORT_DEPTH - depth, |ImportsOf(w, url)| + 1
  {
    PiecesKeepLayers(w, url, 0, depth);
    LayersJoin(DirectFrom(w, url, 0, depth).value, RestOf(w, url));
  }

  lemma {:induction false} PiecesKeepLayers(w: Web, url: string, k: nat, depth: nat)
    requires depth <= MAX_IMPORT_DEPTH && k <= |ImportsOf(w, url)| && DirectFrom(w, url, k, depth).Some?
    ensures Layers(DirectFrom(w, url, k, depth).value) == ImportsLayers(w, url, k, depth)
    decreases MAX_IMPORT_DEPTH - depth, |ImportsOf(w, url)| - k
  {
    if k < |ImportsOf(w, url)| {
      PieceKeepsLayers(w, url, k, depth);
      PiecesKeepLayers(w, url, k + 1, depth);
      LayersJoin(DirectWrapped(w, url, k, depth).value, DirectFrom(w, url, k + 1, depth).value);
    }
  }

  lemma {:induction false} PieceKeepsLayers(w: Web, url: string, k: nat, depth: nat)
    requires depth < MAX_IMPORT_DEPTH && k < |ImportsOf(w, url)| && DirectWrapped(w, url, k, depth).Some?
    ensures Layers(DirectWrapped(w, url, k, depth).value) == ImportLayers(w, url, k, depth)
    decreases MAX_IMPORT_DEPTH - depth, 0
  {
    FetchKeepsLayers(w, Target(w, url, k), depth + 1);
    FetchKeepsMeaning(w, Target(w, url, k), depth + 1, []);
    LayersOfWrapped(Direct(w, Target(w, url, k), depth + 1).value, ConditionsOf(w, url, k));
  }
}
