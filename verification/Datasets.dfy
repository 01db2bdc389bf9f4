/** Names of datasets and what a recursive destroy removes: internal/allocation and ensureStorageAbsent. */
module Datasets {
  import opened Prelude

  /** strings.TrimSuffix(root, "/") */
  function TrimSlash(root: string): string {
    if |root| > 0 && root[|root| - 1] == '/' then root[..|root| - 1] else root
  }

  function Dataset(root: string, name: string): string {
    TrimSlash(root) + "/" + name
  }

  function Zvol(root: string, name: string): string {
    Dataset(root, name) + "/disk0"
  }

  /** Names of machines are DNS labels (internal/config/vm.go): lower-case letters, digits and inner hyphens. */
  predicate IsLabel(name: string) {
    && 0 < |name| <= 63 && name[0] != '-' && name[|name| - 1] != '-'
    && forall c <- name :: 'a' <= c <= 'z' || '0' <= c <= '9' || c == '-'
  }

  /** `child` is `dataset` or lies under it. */
  predicate Within(child: string, dataset: string) {
    child == dataset || (|child| > |dataset| && child[..|dataset|] == dataset && child[|dataset|] == '/')
  }

  /** zfs destroy -r */
  function Destroyed(pool: set<string>, dataset: string): set<string> {
    set d | d in pool && !Within(d, dataset)
  }

  function DestroyedAll(pool: set<string>, root: string, names: seq<string>): set<string> {
    if |names| == 0 then pool
    else Destroyed(DestroyedAll(pool, root, names[..|names| - 1]), Dataset(root, names[|names| - 1]))
  }

  lemma NotShorter(base: string, a: string, b: string, d: string)
    requires '/' !in b && Within(d, base + a) && Within(d, base + b)
    ensures |b| <= |a|
  {
    assert forall i :: 0 <= i < |b| ==> d[|base| + i] == (base + b)[|base| + i] == b[i];
  }

  /** What lies within both of two sibling datasets would make one name the beginning of the other. */
  lemma SiblingsAreApart(root: string, a: string, b: string, d: string)
    requires IsLabel(a) && IsLabel(b) && Within(d, Dataset(root, a)) && Within(d, Dataset(root, b))
    ensures a == b
  {
    var base := TrimSlash(root) + "/";
    NotShorter(base, a, b, d);
    NotShorter(base, b, a, d);
    var x := d[..|base + a|];
    assert x == base + a && x == base + b;
    assert a == x[|base|..] && b == x[|base|..];
  }

  /** A machine's own volume goes with its dataset; the root stays. */
  lemma OwnVolumeIsWithin(root: string, name: string)
    requires IsLabel(name)
    ensures Within(Zvol(root, name), Dataset(root, name)) && Within(Dataset(root, name), Dataset(root, name))
    ensures !Within(TrimSlash(root), Dataset(root, name))
  {
    assert Zvol(root, name)[..|Dataset(root, name)|] == Dataset(root, name);
  }

  /**
    Recursive destroy is isolated.  For one root and two different names, nothing of one machine equals or lies under
    the dataset of the other.
   */
  lemma DestroyIsIsolated(root: string, a: string, b: string)
    requires IsLabel(a) && IsLabel(b) && a != b
    ensures !Within(Dataset(root, b), Dataset(root, a)) && !Within(Zvol(root, b), Dataset(root, a))
  {
    OwnVolumeIsWithin(root, b);
    if Within(Dataset(root, b), Dataset(root, a)) {
      SiblingsAreApart(root, a, b, Dataset(root, b));
    }
    if Within(Zvol(root, b), Dataset(root, a)) {
      SiblingsAreApart(root, a, b, Zvol(root, b));
    }
  }

  /** Whatever other machines are deleted, and however often, a machine keeps every dataset and volume it has. */
  lemma {:induction false} DeletionsOfOthersKeepMine(pool: set<string>, root: string, names: seq<string>, mine: string,
                                                     d: string)
    requires IsLabel(mine) && forall n <- names :: IsLabel(n) && n != mine
    requires Within(d, Dataset(root, mine))
    ensures d in DestroyedAll(pool, root, names) <==> d in pool
  {
    if |names| > 0 {
      var n := names[|names| - 1];
      DeletionsOfOthersKeepMine(pool, root, names[..|names| - 1], mine, d);
      if Within(d, Dataset(root, n)) {
        SiblingsAreApart(root, n, mine, d);
      }
    }
  }
}
