/**
 * The orbit map (`Day06`): each line "A)B" makes body B orbit centre A. Part 1 sums, over all
 * bodies, the number of bodies each one orbits directly or indirectly (its ancestors); part 2
 * counts the orbital transfers from the body YOU orbits to the body SAN orbits, going up
 * through ancestors until it meets SAN's branch, which `addSanFlag` has marked, and then down
 * that branch.
 *
 * Java's `Node` objects are created once per name (`computeIfAbsent`) and compared by name, so
 * a node is its name here, and the class `Orbits` holds each node's `parent`, `children` and
 * `hasSanta` fields as maps and a set keyed by name. Java's `null` parent is a name absent
 * from `parent`.
 */
module Day06 {
  import opened Wrappers

  type Name = seq<char>

  const YOU: Name := "YOU"
  const SAN: Name := "SAN"

  // ---------------------------------------------------------------------------------
  // Parent chains

  /**
   * The ancestors of x, nearest first, found by following `parent` at most `fuel` times;
   * `None` when the chain has not ended by then.
   */
  function Chain(parent: map<Name, Name>, x: Name, fuel: nat): Option<seq<Name>>
    decreases fuel
  {
    if x !in parent then Some([])
    else if fuel == 0 then None
    else match Chain(parent, parent[x], fuel - 1)
      case Some(s) => Some([parent[x]] + s)
      case None => None
  }

  /**
   * The chain from x ends at a body with no parent. A chain that ends has no repeated body,
   * and every body on it but the last is a key of `parent`, so `|parent|` steps always suffice;
   * a chain that does not end loops forever in Java.
   */
  predicate Rooted(parent: map<Name, Name>, x: Name)
  {
    Chain(parent, x, |parent|).Some?
  }

  function Ancestors(parent: map<Name, Name>, x: Name): seq<Name>
    requires Rooted(parent, x)
  {
    Chain(parent, x, |parent|).value
  }

  /** More fuel gives the same chain. */
  lemma {:induction false} ChainFuel(parent: map<Name, Name>, x: Name, f: nat, g: nat)
    requires f <= g && Chain(parent, x, f).Some?
    ensures Chain(parent, x, g) == Chain(parent, x, f)
    decreases f
  {
    if x in parent {
      ChainFuel(parent, parent[x], f - 1, g - 1);
    }
  }

  /** The parent of a rooted body is rooted, and its ancestors are the parent followed by the parent's ancestors. */
  lemma AncestorsStep(parent: map<Name, Name>, x: Name)
    requires Rooted(parent, x) && x in parent
    ensures Rooted(parent, parent[x])
    ensures Ancestors(parent, x) == [parent[x]] + Ancestors(parent, parent[x])
  {
    ChainFuel(parent, parent[x], |parent| - 1, |parent|);
  }

  /** x followed by its ancestors. */
  function Line(parent: map<Name, Name>, x: Name): (s: seq<Name>)
    requires Rooted(parent, x)
    ensures |s| >= 1 && s[0] == x
  {
    [x] + Ancestors(parent, x)
  }

  /**
   * Along the line of x, each body's parent is the next one and the last body has none;
   * every body on it is rooted and its line is the rest of the line.
   */
  lemma {:induction false} LineLinks(parent: map<Name, Name>, x: Name, i: nat)
    requires Rooted(parent, x) && i < |Line(parent, x)|
    ensures Rooted(parent, Line(parent, x)[i])
    ensures Line(parent, Line(parent, x)[i]) == Line(parent, x)[i..]
    ensures i + 1 < |Line(parent, x)| ==> Line(parent, x)[i] in parent && parent[Line(parent, x)[i]] == Line(parent, x)[i + 1]
    ensures i + 1 == |Line(parent, x)| ==> Line(parent, x)[i] !in parent
    decreases i
  {
    var s := Line(parent, x);
    if x in parent {
      AncestorsStep(parent, x);
      assert s == [x] + Line(parent, parent[x]);
      if i > 0 {
        LineLinks(parent, parent[x], i - 1);
        assert s[i..] == Line(parent, parent[x])[i - 1..];
      }
    } else {
      assert Chain(parent, x, |parent|) == Some([]);
    }
  }

  /** A line that ends never visits a body twice. */
  lemma LineDistinct(parent: map<Name, Name>, x: Name, a: nat, b: nat)
    requires Rooted(parent, x) && a < b < |Line(parent, x)|
    ensures Line(parent, x)[a] != Line(parent, x)[b]
  {
    var s := Line(parent, x);
    LineLinks(parent, x, a);
    LineLinks(parent, x, b);
  }

  function Members(s: seq<Name>): set<Name>
  {
    set y | y in s
  }

  /** The bodies `addSanFlag` marks: x and all its ancestors. */
  function Flags(parent: map<Name, Name>, x: Name): set<Name>
    requires Rooted(parent, x)
  {
    Members(Line(parent, x))
  }

  /** `calculateOrbits`: the number of ancestors. */
  function Depth(parent: map<Name, Name>, x: Name): nat
    requires Rooted(parent, x)
  {
    |Ancestors(parent, x)|
  }

  /** A body with no parent orbits nothing; any other orbits one more than its parent. */
  lemma DepthRecurrence(parent: map<Name, Name>, x: Name)
    requires Rooted(parent, x)
    ensures x !in parent ==> Depth(parent, x) == 0
    ensures x in parent ==> Rooted(parent, parent[x]) && Depth(parent, x) == Depth(parent, parent[x]) + 1
  {
    if x in parent {
      AncestorsStep(parent, x);
    } else {
      assert Chain(parent, x, |parent|) == Some([]);
    }
  }

  /** The total number of orbits of a set of bodies. */
  ghost function TotalOrbits(parent: map<Name, Name>, names: set<Name>): nat
    requires forall x :: x in names ==> Rooted(parent, x)
  {
    if names == {} then 0
    else
      var x :| x in names;
      Depth(parent, x) + TotalOrbits(parent, names - {x})
  }

  /** The total does not depend on the order the bodies are summed in. */
  lemma {:induction false} TotalOrbitsAny(parent: map<Name, Name>, names: set<Name>, y: Name)
    requires forall x :: x in names ==> Rooted(parent, x)
    requires y in names
    ensures TotalOrbits(parent, names) == Depth(parent, y) + TotalOrbits(parent, names - {y})
    decreases |names|
  {
    var x :| x in names && TotalOrbits(parent, names) == Depth(parent, x) + TotalOrbits(parent, names - {x});
    if x != y {
      TotalOrbitsAny(parent, names - {x}, y);
      TotalOrbitsAny(parent, names - {y}, x);
      assert names - {x} - {y} == names - {y} - {x};
    }
  }

  // ---------------------------------------------------------------------------------
  // The transfer walk

  /** `findSantaNode`: the first flagged child, in the order the children were added. */
  function FirstFlagged(kids: seq<Name>, hasSanta: set<Name>): (r: Option<Name>)
    ensures r.Some? ==> r.value in kids && r.value in hasSanta
    ensures r.None? ==> forall k :: k in kids ==> k !in hasSanta
  {
    if kids == [] then None
    else if kids[0] in hasSanta then Some(kids[0])
    else FirstFlagged(kids[1..], hasSanta)
  }

  /**
   * The transfers from `current` to `target`: from an unflagged body go to its parent, from a
   * flagged one to its first flagged child. `None` when Java would throw (a missing parent or
   * no flagged child) or after `fuel` transfers.
   */
  function Walk(parent: map<Name, Name>, children: map<Name, seq<Name>>, hasSanta: set<Name>, current: Name, target: Name, fuel: nat): Option<nat>
    decreases fuel
  {
    if current == target then Some(0)
    else if fuel == 0 then None
    else
      var next := if current !in hasSanta then (if current in parent then Some(parent[current]) else None)
        else if current in children then FirstFlagged(children[current], hasSanta) else None;
      match next
      case None => None
      case Some(n) =>
        match Walk(parent, children, hasSanta, n, target, fuel - 1)
        case None => None
        case Some(t) => Some(t + 1)
  }

  /** Every listed child has its list's owner as parent. */
  predicate ChildrenAgree(parent: map<Name, Name>, children: map<Name, seq<Name>>)
  {
    forall c, y :: c in children && y in children[c] ==> y in parent && parent[y] == c
  }

  /** Every body with a parent is listed among its parent's children. */
  predicate ChildrenListed(parent: map<Name, Name>, children: map<Name, seq<Name>>)
  {
    forall x :: x in parent ==> parent[x] in children && x in children[parent[x]]
  }

  /** Going down SAN's line, each flagged body leads to the next body towards `target`. */
  lemma {:induction false} WalkDown(parent: map<Name, Name>, children: map<Name, seq<Name>>, target: Name, j: nat, fuel: nat)
    requires Rooted(parent, target) && j < |Line(parent, target)| && j <= fuel
    requires ChildrenAgree(parent, children) && ChildrenListed(parent, children)
    ensures Walk(parent, children, Flags(parent, target), Line(parent, target)[j], target, fuel) == Some(j)
    decreases j
  {
    var s := Line(parent, target);
    var flags := Flags(parent, target);
    if j > 0 {
      LineDistinct(parent, target, 0, j);
      var below := s[j - 1];
      LineLinks(parent, target, j - 1);
      assert s[j] in children && below in children[s[j]];
      var kids := children[s[j]];
      assert FirstFlagged(kids, flags) == Some(below) by {
        var r := FirstFlagged(kids, flags);
        assert s[j - 1] in flags;
        var i :| 0 <= i < |s| && s[i] == r.value;
        if i + 1 < |s| {
          LineLinks(parent, target, i);
          if i + 1 != j {
            LineDistinct(parent, target, if i + 1 < j then i + 1 else j, if i + 1 < j then j else i + 1);
          }
        } else {
          LineLinks(parent, target, i);
        }
      }
      WalkDown(parent, children, target, j - 1, fuel - 1);
    }
  }

  /**
   * Going up from u through unflagged bodies: the walk from the i-th body of u's line takes
   * k - i transfers more than the walk from the k-th.
   */
  lemma {:induction false} WalkUp(parent: map<Name, Name>, children: map<Name, seq<Name>>, hasSanta: set<Name>, u: Name, target: Name, i: nat, k: nat, fuel: nat)
    requires Rooted(parent, u) && i <= k < |Line(parent, u)|
    requires forall m :: i <= m < k ==> Line(parent, u)[m] !in hasSanta && Line(parent, u)[m] != target
    ensures Walk(parent, children, hasSanta, Line(parent, u)[i], target, fuel + (k - i))
      == match Walk(parent, children, hasSanta, Line(parent, u)[k], target, fuel)
         case None => None
         case Some(t) => Some(t + (k - i))
    decreases k - i
  {
    if i < k {
      LineLinks(parent, u, i);
      WalkUp(parent, children, hasSanta, u, target, i + 1, k, fuel);
    }
  }

  /** Bodies off a line are not flagged and are not its first body. */
  lemma Unflagged(line: seq<Name>, up: seq<Name>, k: nat)
    requires line != [] && k <= |up|
    requires forall m :: 0 <= m < k ==> up[m] !in line
    ensures forall m :: 0 <= m < k ==> up[m] !in Members(line) && up[m] != line[0]
  {
  }

  /**
   * The transfer count of part 2: when the k-th body of u's line (u itself being the 0th) is
   * the first one on SAN's branch, and it is the j-th body above `target`, the walk goes k
   * steps up and j steps down, and ends at `target`.
   */
  lemma Transfers(parent: map<Name, Name>, children: map<Name, seq<Name>>, u: Name, target: Name, k: nat, j: nat, fuel: nat)
    requires Rooted(parent, u) && Rooted(parent, target)
    requires ChildrenAgree(parent, children) && ChildrenListed(parent, children)
    requires k < |Line(parent, u)| && j < |Line(parent, target)| && Line(parent, u)[k] == Line(parent, target)[j]
    requires forall m :: 0 <= m < k ==> Line(parent, u)[m] !in Line(parent, target)
    requires fuel >= k + j
    ensures Walk(parent, children, Flags(parent, target), u, target, fuel) == Some(k + j)
  {
    var flags := Flags(parent, target);
    var up := Line(parent, u);
    Unflagged(Line(parent, target), up, k);
    var rest: nat := fuel - k;
    WalkDown(parent, children, target, j, rest);
    WalkUp(parent, children, flags, u, target, 0, k, rest);
    assert rest + (k - 0) == fuel && up[0] == u;
  }

  /** The child lists after `addOrbit`: both bodies get a list, and the body joins the centre's. */
  function Attach(children: map<Name, seq<Name>>, center: Name, body: Name): map<Name, seq<Name>>
  {
    var c1 := if center in children then children else children[center := []];
    var c2 := if body in c1 then c1 else c1[body := []];
    c2[center := c2[center] + [body]]
  }

  /**
   * Attaching keeps every other list, appends the body to the centre's list, keeps every
   * parent listed among its children, and keeps each listed child's parent when the body
   * had none before.
   */
  lemma AttachKeepsLinks(parent: map<Name, Name>, children: map<Name, seq<Name>>, center: Name, body: Name)
    ensures Attach(children, center, body).Keys == children.Keys + {center, body}
    ensures Attach(children, center, body)[center] == (if center in children then children[center] else []) + [body]
    ensures forall x :: x in Attach(children, center, body) && x != center ==>
      Attach(children, center, body)[x] == if x in children then children[x] else []
    ensures ChildrenListed(parent, children) ==> ChildrenListed(parent[body := center], Attach(children, center, body))
    ensures body !in parent && ChildrenAgree(parent, children) ==> ChildrenAgree(parent[body := center], Attach(children, center, body))
  {
    var a := Attach(children, center, body);
    var p := parent[body := center];
    if ChildrenListed(parent, children) {
      forall x | x in p
        ensures p[x] in a && x in a[p[x]]
      {
        if x != body {
          assert x in children[parent[x]];
        }
      }
    }
    if body !in parent && ChildrenAgree(parent, children) {
      forall c, y | c in a && y in a[c]
        ensures y in p && p[y] == c
      {
        if !(c == center && y == body) {
          assert y in children[c];
        }
      }
    }
  }

  // ---------------------------------------------------------------------------------
  // The nodes

  class Orbits {
    /** The names of `nodes`, the map of all bodies. */
    var nodes: set<Name>
    var parent: map<Name, Name>
    var children: map<Name, seq<Name>>
    var hasSanta: set<Name>

    /** Every body with a parent and every parent is a node, and every node has a child list. */
    predicate Valid()
      reads this
    {
      && parent.Keys <= nodes && parent.Values <= nodes && children.Keys == nodes
      && ChildrenListed(parent, children)
    }

    /** Every node's chain of parents ends, as part 1 and `addSanFlag` need. */
    predicate Forest()
      reads this
    {
      forall x :: x in nodes ==> Rooted(parent, x)
    }

    constructor()
      ensures nodes == {} && parent == map[] && children == map[] && hasSanta == {}
      ensures Valid()
    {
      nodes, parent, children, hasSanta := {}, map[], map[], {};
    }

    /** `addOrbit`: find or create both nodes, set the body's parent and append it to the centre's children. */
    method AddOrbit(center: Name, body: Name)
      requires Valid()
      modifies this
      ensures Valid()
      ensures nodes == old(nodes) + {center, body}
      ensures parent == old(parent)[body := center]
      ensures hasSanta == old(hasSanta)
      ensures children == Attach(old(children), center, body)
      ensures body !in old(parent) && old(ChildrenAgree(parent, children)) ==> ChildrenAgree(parent, children)
    {
      AttachKeepsLinks(parent, children, center, body);
      nodes := nodes + {center, body};
      parent := parent[body := center];
      children := Attach(children, center, body);
    }

    /** `calculateOrbits`: walk up the parents, counting. */
    method CalculateOrbits(name: Name) returns (totalOrbits: nat)
      requires Rooted(parent, name)
      ensures totalOrbits == Depth(parent, name)
    {
      ghost var line := Line(parent, name);
      LineLinks(parent, name, 0);
      var parentBody: Option<Name> := if name in parent then Some(parent[name]) else None;
      totalOrbits := 0;
      while parentBody.Some?
        invariant totalOrbits < |line|
        invariant parentBody == if totalOrbits + 1 < |line| then Some(line[totalOrbits + 1]) else None
        decreases |line| - totalOrbits
      {
        LineLinks(parent, name, totalOrbits + 1);
        var p := parentBody.value;
        parentBody := if p in parent then Some(parent[p]) else None;
        totalOrbits := totalOrbits + 1;
      }
    }

    /** Part 1: the sum of `calculateOrbits` over all nodes. */
    method Part01() returns (total: nat)
      requires Forest()
      ensures total == TotalOrbits(parent, nodes)
    {
      total := 0;
      var left := nodes;
      while left != {}
        invariant left <= nodes
        invariant total + TotalOrbits(parent, left) == TotalOrbits(parent, nodes)
        decreases |left|
      {
        var x :| x in left;
        TotalOrbitsAny(parent, left, x);
        var orbits := CalculateOrbits(x);
        total := total + orbits;
        left := left - {x};
      }
    }

    /** `addSanFlag`: flag the node and every ancestor. */
    method AddSanFlag(name: Name)
      requires Rooted(parent, name)
      modifies this
      ensures nodes == old(nodes) && parent == old(parent) && children == old(children)
      ensures hasSanta == old(hasSanta) + Flags(parent, name)
    {
      ghost var line := Line(parent, name);
      hasSanta := hasSanta + {name};
      LineLinks(parent, name, 0);
      var parentBody: Option<Name> := if name in parent then Some(parent[name]) else None;
      ghost var i := 0;
      while parentBody.Some?
        invariant nodes == old(nodes) && parent == old(parent) && children == old(children)
        invariant i < |line|
        invariant parentBody == if i + 1 < |line| then Some(line[i + 1]) else None
        invariant hasSanta == old(hasSanta) + Members(line[..i + 1])
        decreases |line| - i
      {
        LineLinks(parent, name, i + 1);
        var p := parentBody.value;
        hasSanta := hasSanta + {p};
        assert line[..i + 2] == line[..i + 1] + [p];
        parentBody := if p in parent then Some(parent[p]) else None;
        i := i + 1;
      }
      assert line[..i + 1] == line;
    }

    /**
     * `part02`: flag SAN's parent and its ancestors, then walk from YOU's parent. A missing
     * YOU or SAN, or a missing parent, is Java's `NullPointerException`, here `None`;
     * `fuel` bounds the transfers, as the Java loop need not end.
     */
    method Part02(fuel: nat) returns (transfers: Option<nat>)
      requires Valid() && Forest()
      modifies this
      ensures nodes == old(nodes) && parent == old(parent) && children == old(children)
      ensures transfers.Some? ==> YOU in parent && SAN in parent
      ensures YOU in parent && SAN in parent ==>
        && hasSanta == old(hasSanta) + Flags(parent, parent[SAN])
        && transfers == Walk(parent, children, hasSanta, parent[YOU], parent[SAN], fuel)
    {
      if YOU !in parent || SAN !in parent {
        return None;
      }
      var youParent := parent[YOU];
      var sanParent := parent[SAN];
      AddSanFlag(sanParent);
      var count := 0;
      var currentNode := youParent;
      while currentNode != sanParent
        invariant count <= fuel
        invariant Walk(parent, children, hasSanta, youParent, sanParent, fuel)
          == match Walk(parent, children, hasSanta, currentNode, sanParent, fuel - count)
             case None => None
             case Some(t) => Some(t + count)
        decreases fuel - count
      {
        if count == fuel {
          return None;
        }
        var next: Option<Name>;
        if currentNode !in hasSanta {
          next := if currentNode in parent then Some(parent[currentNode]) else None;
        } else {
          next := if currentNode in children then FirstFlagged(children[currentNode], hasSanta) else None;
        }
        if next.None? {
          return None;
        }
        currentNode := next.value;
        count := count + 1;
      }
      return Some(count);
    }
  }
}
