/**
  The two `UserDefaults` entries that remember where the panel was last dropped.
  The store is an abstract key-value map; writing it through to disk is not modelled.
 */
module Defaults {
  import opened Wrappers
  import opened Geometry

  /** A stored value: a number the `as? CGFloat` cast accepts, or anything else. */
  datatype Value = Number(n: real) | Other

  type Store = map<string, Value>

  const KeyX: string := "DebugPanel.frame.origin.x"
  const KeyY: string := "DebugPanel.frame.origin.y"

  /** The remembered origin, present only when both keys hold numbers. */
  function StoredOrigin(s: Store): Option<Point> {
    if KeyX in s && s[KeyX].Number? && KeyY in s && s[KeyY].Number?
    then Some(Point(s[KeyX].n, s[KeyY].n))
    else None
  }

  /** The origin a freshly constructed panel takes from the store: the remembered one, or zero. */
  function RestoredOrigin(s: Store): (r: Point)
    ensures KeyX in s && s[KeyX].Number? && KeyY in s && s[KeyY].Number? ==> r == Point(s[KeyX].n, s[KeyY].n)
    ensures !(KeyX in s && s[KeyX].Number?) || !(KeyY in s && s[KeyY].Number?) ==> r == Zero
  {
    match StoredOrigin(s)
    case Some(p) => p
    case None => Zero
  }

  /** Write an origin under the two keys; every other entry is kept. */
  function Persist(s: Store, p: Point): (r: Store)
    ensures StoredOrigin(r) == Some(p)
    ensures r.Keys == s.Keys + {KeyX, KeyY}
    ensures forall k :: k in s && k != KeyX && k != KeyY ==> r[k] == s[k]
  {
    s[KeyX := Number(p.x)][KeyY := Number(p.y)]
  }

  /** Restoring after persisting gives back exactly the persisted origin. */
  lemma RestoreAfterPersist(s: Store, p: Point)
    ensures RestoredOrigin(Persist(s, p)) == p
  {
  }
}
