/**
 * The phone-number redirect registry: a global register of dictionaries,
 * each mapping a telephone number to the number it is redirected to.
 * Dictionaries are identified by ids handed out by a counter.
 */
module Maptel {

  /** Longest telephone number the registry accepts (`jnp1::TEL_NUM_MAX_LEN`). */
  const TEL_NUM_MAX_LEN: nat := 22

  /** Number of `unsigned long` values: the id counter wraps around modulo this. */
  const ULONG_MODULUS: nat := 0x1_0000_0000_0000_0000

  /** One dictionary of redirections. */
  type Dict = map<string, string>

  /** A character `correct_tel_chars` accepts: a decimal digit or NUL. */
  predicate IsTelChar(c: char) {
    ('0' <= c <= '9') || c == '\0'
  }

  /** Every character of `tel` is a digit or NUL. */
  predicate TelChars(tel: string) {
    forall i :: 0 <= i < |tel| ==> IsTelChar(tel[i])
  }

  /** What the debug checks demand of a telephone number argument. */
  predicate IsTel(tel: string) {
    0 < |tel| <= TEL_NUM_MAX_LEN && TelChars(tel)
  }

  /** `correct_tel_chars`: scans the number and stops at the first bad character. */
  method CorrectTelChars(tel: string) returns (ok: bool)
    ensures ok == TelChars(tel)
  {
    for i := 0 to |tel|
      invariant forall k :: 0 <= k < i ==> IsTelChar(tel[k])
    {
      if !IsTelChar(tel[i]) {
        return false;
      }
    }
    return true;
  }

  // ---------------------------------------------------------------------
  // Redirect chains, the specification of maptel_transform
  // ---------------------------------------------------------------------

  /** `path` is a walk along redirections of `m`: each element but the last
      is redirected to the next one. */
  ghost predicate IsChain(m: Dict, path: seq<string>) {
    |path| > 0 &&
    forall k :: 0 <= k < |path| - 1 ==> path[k] in m && m[path[k]] == path[k + 1]
  }

  /** Following the redirections of `m` from `src` ends at `t`, a number with
      no redirection of its own. */
  ghost predicate EndsAt(m: Dict, src: string, t: string) {
    t !in m &&
    exists path :: IsChain(m, path) && path[0] == src && path[|path| - 1] == t
  }

  /** The number `src` is transformed to: the end of its redirect chain if the
      chain has one, and `src` itself when the chain runs into a cycle. */
  ghost function Transformed(m: Dict, src: string): (r: string)
    ensures (exists t :: EndsAt(m, src, t)) ==> EndsAt(m, src, r)
    ensures !(exists t :: EndsAt(m, src, t)) ==> r == src
    ensures r in m ==> r == src
  {
    if exists t :: EndsAt(m, src, t) then
      var t :| EndsAt(m, src, t); t
    else
      src
  }

  /** Two walks from the same number agree wherever both are defined. */
  lemma {:induction false} ChainsAgree(m: Dict, p: seq<string>, q: seq<string>, k: nat)
    requires IsChain(m, p) && IsChain(m, q) && p[0] == q[0]
    requires k < |p| && k < |q|
    ensures p[k] == q[k]
  {
    if k > 0 {
      ChainsAgree(m, p, q, k - 1);
    }
  }

  /** A redirect chain has at most one end. */
  lemma EndUnique(m: Dict, src: string, t1: string, t2: string)
    requires EndsAt(m, src, t1) && EndsAt(m, src, t2)
    ensures t1 == t2
  {
    var p :| IsChain(m, p) && p[0] == src && p[|p| - 1] == t1;
    var q :| IsChain(m, q) && q[0] == src && q[|q| - 1] == t2;
    if |p| < |q| {
      ChainsAgree(m, p, q, |p| - 1);
    } else if |q| < |p| {
      ChainsAgree(m, p, q, |q| - 1);
    } else {
      ChainsAgree(m, p, q, |p| - 1);
    }
  }

  /** A set of numbers that are all redirected, and only to numbers of the set,
      traps every walk that starts in it. */
  lemma {:induction false} TrappedWalk(m: Dict, s: set<string>, path: seq<string>, k: nat)
    requires forall n :: n in s ==> n in m && m[n] in s
    requires IsChain(m, path) && path[0] in s
    requires k < |path|
    ensures path[k] in s
  {
    if k > 0 {
      TrappedWalk(m, s, path, k - 1);
    }
  }

  /** A walk that starts in a closed set of redirected numbers has no end. */
  lemma NoEndFromClosedSet(m: Dict, s: set<string>, src: string)
    requires forall n :: n in s ==> n in m && m[n] in s
    requires src in s
    ensures forall t :: !EndsAt(m, src, t)
  {
    forall t | EndsAt(m, src, t)
      ensures false
    {
      var p :| IsChain(m, p) && p[0] == src && p[|p| - 1] == t;
      TrappedWalk(m, s, p, |p| - 1);
    }
  }

  /** A number with no redirection is transformed to itself. */
  lemma TransformedUnmapped(m: Dict, src: string)
    requires src !in m
    ensures Transformed(m, src) == src
  {
    assert IsChain(m, [src]);
    assert EndsAt(m, src, src);
    EndUnique(m, src, src, Transformed(m, src));
  }

  /** Transforming a number that was just redirected to a fresh, unredirected
      number yields that number. */
  lemma TransformAfterRedirect(m: Dict, src: string, dst: string)
    requires dst !in m && dst != src
    ensures Transformed(m[src := dst], src) == dst
  {
    var m' := m[src := dst];
    assert IsChain(m', [src, dst]);
    assert EndsAt(m', src, dst);
    EndUnique(m', src, dst, Transformed(m', src));
  }

  /** A number redirected to itself is a cycle: it is transformed to itself. */
  lemma TransformSelfRedirect(m: Dict, src: string)
    ensures Transformed(m[src := src], src) == src
  {
    NoEndFromClosedSet(m[src := src], {src}, src);
  }

  /** Transforming the result of a transformation changes nothing more. */
  lemma TransformIdempotent(m: Dict, src: string)
    ensures Transformed(m, Transformed(m, src)) == Transformed(m, src)
  {
    var r := Transformed(m, src);
    if r != src {
      TransformedUnmapped(m, r);
    }
  }

  // ---------------------------------------------------------------------
  // The registry
  // ---------------------------------------------------------------------

  /** The global register `maps()` together with the counter `number_of_dict`. */
  class Registry {
    var maps: map<nat, Dict>
    var numberOfDict: nat

    /** Everything the register holds fits an `unsigned long`: the counter
        and every id, so that every id `Create` hands out is below 2^64. */
    ghost predicate Valid()
      reads this
    {
      numberOfDict < ULONG_MODULUS &&
      forall id :: id in maps ==> id < ULONG_MODULUS
    }

    /** Every dictionary present was handed out before the counter's value. */
    ghost predicate IdsIssued()
      reads this
    {
      forall id :: id in maps ==> id < numberOfDict
    }

    /** The register as it is before the first call. */
    constructor ()
      ensures Valid() && IdsIssued()
      ensures maps == map[] && numberOfDict == 0
    {
      maps := map[];
      numberOfDict := 0;
    }

    /** `maptel_create`: makes sure the dictionary with the counter's id exists,
        returns that id and advances the counter (wrapping as `unsigned long`). */
    method Create() returns (id: nat)
      requires Valid()
      modifies this
      ensures Valid()
      ensures id == old(numberOfDict) && id < ULONG_MODULUS
      ensures numberOfDict == (old(numberOfDict) + 1) % ULONG_MODULUS
      ensures maps == old(maps)[id := if id in old(maps) then old(maps)[id] else map[]]
      ensures old(IdsIssued()) && old(numberOfDict) + 1 < ULONG_MODULUS ==>
                IdsIssued() && id !in old(maps) && maps[id] == map[] &&
                id < numberOfDict
    {
      if numberOfDict !in maps {
        maps := maps[numberOfDict := map[]];
      }
      id := numberOfDict;
      numberOfDict := (numberOfDict + 1) % ULONG_MODULUS;
    }

    /** `maptel_delete`: removes dictionary `id`, which must exist. */
    method Delete(id: nat)
      requires Valid() && id in maps
      modifies this
      ensures Valid() && (old(IdsIssued()) ==> IdsIssued())
      ensures id !in maps
      ensures forall other :: other != id ==>
                (other in maps <==> other in old(maps)) &&
                (other in maps ==> maps[other] == old(maps)[other])
      ensures maps == old(maps) - {id} && numberOfDict == old(numberOfDict)
    {
      maps := maps - {id};
    }

    /** `maptel_insert`: redirects `telSrc` to `telDst` in dictionary `id`,
        replacing any earlier redirection of `telSrc`. */
    method Insert(id: nat, telSrc: string, telDst: string)
      requires Valid() && id in maps
      requires IsTel(telSrc) && IsTel(telDst)
      modifies this
      ensures Valid() && (old(IdsIssued()) ==> IdsIssued())
      ensures maps.Keys == old(maps).Keys && numberOfDict == old(numberOfDict)
      ensures telSrc in maps[id] && maps[id][telSrc] == telDst
      ensures forall tel :: tel != telSrc ==>
                (tel in maps[id] <==> tel in old(maps)[id]) &&
                (tel in maps[id] ==> maps[id][tel] == old(maps)[id][tel])
      ensures forall other :: other in maps && other != id ==> maps[other] == old(maps)[other]
      ensures maps == old(maps)[id := old(maps)[id][telSrc := telDst]]
    {
      var dict := maps[id];
      maps := maps[id := dict[telSrc := telDst]];
    }

    /** `maptel_erase`: removes the redirection of `telSrc` from dictionary
        `id`; nothing happens when there is none. */
    method Erase(id: nat, telSrc: string)
      requires Valid() && id in maps
      requires IsTel(telSrc)
      modifies this
      ensures Valid() && (old(IdsIssued()) ==> IdsIssued())
      ensures maps.Keys == old(maps).Keys && numberOfDict == old(numberOfDict)
      ensures telSrc !in maps[id]
      ensures telSrc !in old(maps)[id] ==> maps == old(maps)
      ensures forall tel :: tel != telSrc ==>
                (tel in maps[id] <==> tel in old(maps)[id]) &&
                (tel in maps[id] ==> maps[id][tel] == old(maps)[id][tel])
      ensures forall other :: other in maps && other != id ==> maps[other] == old(maps)[other]
      ensures maps == old(maps)[id := old(maps)[id] - {telSrc}]
    {
      var dict := maps[id];
      if telSrc !in dict {
        assert dict - {telSrc} == dict;
      }
      maps := maps[id := dict - {telSrc}];
    }

    /** `maptel_transform`: follows the redirections of `telSrc` in a copy of
        dictionary `id`, remembering every number seen; when a number comes
        round again it gives up and answers `telSrc`. The caller's buffer must
        hold the answer (`len` is its size, including the terminating NUL). */
    method Transform(id: nat, telSrc: string, len: nat) returns (telDst: string)
      requires Valid() && id in maps
      requires IsTel(telSrc)
      requires |Transformed(maps[id], telSrc)| < len
      ensures telDst == Transformed(maps[id], telSrc)
      ensures telDst == telSrc || telDst !in maps[id]
    {
      var src := telSrc;
      var cycleDetected := false;
      var visited: set<string> := {src};
      var currMap := maps[id];
      ghost var path := [src];
      while src in currMap
        invariant IsChain(currMap, path) && path[0] == telSrc && path[|path| - 1] == src
        invariant forall n :: n in visited <==> n in path
        invariant !cycleDetected
        decreases currMap.Values - visited
      {
        var dst := currMap[src];
        assert dst in currMap.Values;
        if dst in visited {
          // every number seen so far is redirected within `visited`
          forall n | n in visited
            ensures n in currMap && currMap[n] in visited
          {
            var k :| 0 <= k < |path| && path[k] == n;
            if k < |path| - 1 {
              assert path[k + 1] in path;
            }
          }
          NoEndFromClosedSet(currMap, visited, telSrc);
          cycleDetected := true;
          src := telSrc;
          break;
        } else {
          visited := visited + {dst};
          path := path + [dst];
          src := dst;
        }
      }
      if !cycleDetected {
        assert EndsAt(currMap, telSrc, src);
        EndUnique(currMap, telSrc, src, Transformed(currMap, telSrc));
      }
      telDst := src;
    }
  }
}
