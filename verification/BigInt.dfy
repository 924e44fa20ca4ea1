/** Copy-on-write big integers over shared numbers with a pool of recycled ones: they behave like independent integers.
    A shared pointer is a reference into `cells`; its use count is the number of variables (and pool entries) that hold it. */
module BigInt {

  class Context {
    /** Which number each live variable refers to. */
    var vars: map<nat, nat>
    /** The numbers that are allocated. */
    var cells: map<nat, int>
    /** `cached_bns`, the pool of numbers nobody uses. */
    var pool: seq<nat>
    var next: nat

    ghost predicate Valid()
      reads this
    {
      && (forall v :: v in vars ==> vars[v] in cells)
      && (forall i :: 0 <= i < |pool| ==> pool[i] in cells)
      && (forall i, j :: 0 <= i < j < |pool| ==> pool[i] != pool[j])
      && (forall v, i :: v in vars && 0 <= i < |pool| ==> vars[v] != pool[i])
      && (forall c :: c in cells ==> c < next)
    }

    /** What the variables are worth: all that can be seen from outside. */
    ghost function Values(): (m: map<nat, int>)
      reads this
      requires Valid()
      ensures m.Keys == vars.Keys && forall v :: v in vars ==> m[v] == cells[vars[v]]
    {
      map v | v in vars :: cells[vars[v]]
    }

    function Owners(c: nat): set<nat>
      reads this
    {
      set v | v in vars && vars[v] == c
    }

    /** `num.unique()`. */
    predicate Unique(v: nat)
      reads this
      requires v in vars
    {
      Owners(vars[v]) == {v}
    }

    constructor (cache: nat)
      ensures Valid() && Values() == map[] && |pool| == cache
    {
      vars, cells, pool, next := map[], map[], [], 0;
      new;
      for i := 0 to cache
        invariant Valid() && vars == map[] && |pool| == i
      {
        cells := cells[next := 0];
        pool := pool + [next];
        next := next + 1;
      }
    }

    /** `get_bn`: a number nobody owns; from the pool, with whatever it held, if there is one. */
    method GetNumber() returns (c: nat)
      requires Valid()
      modifies this`cells, this`pool, this`next
      ensures Valid() && Values() == old(Values()) && c in cells && Owners(c) == {} && c !in pool
      ensures forall d :: d in old(cells) ==> d in cells && cells[d] == old(cells)[d]
    {
      if pool == [] {
        c := next;
        cells := cells[c := 0];
        next := next + 1;
      } else {
        c := pool[|pool| - 1];
        pool := pool[..|pool| - 1];
      }
    }

    /** The default constructor: the value is whatever the number held. */
    method Create(v: nat)
      requires Valid() && v !in vars
      modifies this
      ensures Valid() && vars.Keys == old(vars.Keys) + {v} && Unique(v) && Values() == old(Values())[v := Values()[v]]
    {
      var c := GetNumber();
      assert forall u :: u in vars && vars[u] == c ==> u in Owners(c);
      vars := vars[v := c];
    }

    /** The in-place arithmetic of the library on the variable's own number. */
    method Write(v: nat, x: int)
      requires Valid() && v in vars && Unique(v)
      modifies this`cells
      ensures Valid() && Values() == old(Values())[v := x]
    {
      assert forall u :: u in vars && vars[u] == vars[v] ==> u in Owners(vars[v]);
      cells := cells[vars[v] := x];
    }

    method CreateFrom(v: nat, x: nat)
      requires Valid() && v !in vars
      modifies this
      ensures Valid() && Values() == old(Values())[v := x]
    {
      Create(v);
      Write(v, x);
    }

    /** The copy constructor shares the number. */
    method Copy(v: nat, w: nat)
      requires Valid() && v !in vars && w in vars
      modifies this`vars
      ensures Valid() && vars == old(vars)[v := old(vars)[w]] && Values() == old(Values())[v := old(Values())[w]]
    {
      vars := vars[v := vars[w]];
    }

    /** The destructor: a number only this variable owns goes back to the pool. */
    method Destroy(v: nat)
      requires Valid() && v in vars
      modifies this`vars, this`pool
      ensures Valid() && Values() == old(Values()) - {v}
      ensures old(Unique(v)) ==> pool == old(pool) + [old(vars[v])]
      ensures !old(Unique(v)) ==> pool == old(pool)
    {
      if Unique(v) {
        assert forall w :: w in vars && vars[w] == vars[v] ==> w in Owners(vars[v]);
        pool := pool + [vars[v]];
      }
      vars := vars - {v};
    }

    /** Assignment shares the number, too; one that nobody else owned is freed, not pooled. */
    method Assign(v: nat, w: nat)
      requires Valid() && v in vars && w in vars
      modifies this`vars, this`cells
      ensures Valid() && Values() == old(Values())[v := old(Values())[w]]
    {
      ghost var was := vars;
      var free := Unique(v) && vars[w] != vars[v];
      var c := vars[v];
      assert forall u :: u in was && was[u] == c ==> u in Owners(c);
      vars := vars[v := vars[w]];
      if free {
        cells := cells - {c};
      }
    }

    /** `copy_on_write`: afterwards the variable owns its number alone, and nothing seems to have happened. */
    method CopyOnWrite(v: nat)
      requires Valid() && v in vars
      modifies this
      ensures Valid() && vars.Keys == old(vars.Keys) && Unique(v) && Values() == old(Values())
    {
      if !Unique(v) {
        var held := cells[vars[v]];
        var c := GetNumber();
        assert forall u :: u in vars && vars[u] == c ==> u in Owners(c);
        cells := cells[c := held];
        vars := vars[v := c];
      }
    }

    /** `isolate_on_write`: as above, but the old value is not carried over. */
    method IsolateOnWrite(v: nat)
      requires Valid() && v in vars
      modifies this
      ensures Valid() && vars.Keys == old(vars.Keys) && Unique(v) && Values() == old(Values())[v := Values()[v]]
    {
      if !Unique(v) {
        var c := GetNumber();
        assert forall u :: u in vars && vars[u] == c ==> u in Owners(c);
        vars := vars[v := c];
      }
    }

    method SetNumber(v: nat, x: nat)
      requires Valid() && v in vars
      modifies this
      ensures Valid() && Values() == old(Values())[v := x]
    {
      IsolateOnWrite(v);
      Write(v, x);
    }

    /** `v += w`, also where the two share a number or are the same variable. */
    method AddAssign(v: nat, w: nat)
      requires Valid() && v in vars && w in vars
      modifies this
      ensures Valid() && Values() == old(Values())[v := old(Values())[v] + old(Values())[w]]
    {
      CopyOnWrite(v);
      Write(v, cells[vars[v]] + cells[vars[w]]);
    }

    method SubAssign(v: nat, w: nat)
      requires Valid() && v in vars && w in vars
      modifies this
      ensures Valid() && Values() == old(Values())[v := old(Values())[v] - old(Values())[w]]
    {
      CopyOnWrite(v);
      Write(v, cells[vars[v]] - cells[vars[w]]);
    }

    method MulAssign(v: nat, w: nat)
      requires Valid() && v in vars && w in vars
      modifies this
      ensures Valid() && Values() == old(Values())[v := old(Values())[v] * old(Values())[w]]
    {
      CopyOnWrite(v);
      Write(v, cells[vars[v]] * cells[vars[w]]);
    }

    /** `v.addmul(w, y)`: `v += w * y`. */
    method AddMul(v: nat, w: nat, y: nat)
      requires Valid() && v in vars && w in vars
      modifies this
      ensures Valid() && Values() == old(Values())[v := old(Values())[v] + old(Values())[w] * y]
    {
      CopyOnWrite(v);
      Write(v, cells[vars[v]] + cells[vars[w]] * y);
    }

    /** `u = v + w`, into a new variable. */
    method Plus(u: nat, v: nat, w: nat)
      requires Valid() && u !in vars && v in vars && w in vars
      modifies this
      ensures Valid() && Values() == old(Values())[u := old(Values())[v] + old(Values())[w]]
    {
      Create(u);
      Write(u, cells[vars[v]] + cells[vars[w]]);
    }
  }
}
