/**
 * Rewriting a theme's relative asset entries (stylesheets, fonts) into
 * absolute URIs: every entry `e` becomes `toUri(prefix + e)`, where `prefix`
 * is the theme folder's absolute path followed by a separator.
 */
module AssetPaths {

  /** The resolved list: same length, same order, each entry converted. */
  function Resolved(prefix: string, entries: seq<string>, toUri: string -> string): (r: seq<string>)
    ensures |r| == |entries|
    ensures forall i :: 0 <= i < |entries| ==> r[i] == toUri(prefix + entries[i])
  {
    if entries == [] then []
    else [toUri(prefix + entries[0])] + Resolved(prefix, entries[1..], toUri)
  }

  /** The index loop that overwrites each list slot with its resolved form (`list.set(i, …)`). */
  method ResolveAll(prefix: string, entries: seq<string>, toUri: string -> string) returns (list: seq<string>)
    ensures list == Resolved(prefix, entries, toUri)
  {
    list := entries;
    for i := 0 to |list|
      invariant |list| == |entries|
      invariant forall k :: 0 <= k < i ==> list[k] == toUri(prefix + entries[k])
      invariant forall k :: i <= k < |list| ==> list[k] == entries[k]
    {
      list := list[i := toUri(prefix + list[i])];
    }
  }
}
