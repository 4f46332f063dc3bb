/** Actor addresses (pid.go) and the IDs SpawnChild derives from them (context.go). */
module Pids {

  type Id = string

  /** `*PID`: possibly nil. */
  datatype Pid = Nil | Pid(address: string, id: Id) {

    /** pid.go:36. */
    predicate Equals(other: Pid): (r: bool)
      ensures r <==> this == other
    {
      if Nil? && other.Nil? then true
      else if Nil? || other.Nil? then false
      else address == other.address && id == other.id
    }

    /** pid.go:47. */
    function Child(name: string): (r: Pid)
      ensures r.Pid?
    {
      if Nil? then Pid("", name)
      else if id == "" then Pid(address, name)
      else Pid(address, id + "/" + name)
    }
  }

  /** The ID SpawnChild gives a child of `parent` (context.go:114-115). */
  function ChildId(parent: Id, kind: string, name: string): Id {
    Pid("local", parent).Child(kind + "/" + name).id
  }

  /** `a` is a proper prefix of `b`. */
  predicate Extends(a: Id, b: Id) { |a| < |b| && a <= b }

  /** A child's ID strictly extends its parent's, whatever kind and name were asked for. */
  lemma ChildExtends(parent: Id, kind: string, name: string)
    ensures Extends(parent, ChildId(parent, kind, name))
  {
    var s := kind + "/" + name;
    assert |s| > 0;
    assert parent != "" ==> parent + "/" + s == parent + ("/" + s);
  }

  /** A child lives at its parent's address, a child of nobody at none, and its name can be read off its ID. */
  lemma ChildNamed(p: Pid, name: string)
    ensures p.Child(name).address == if p.Nil? then "" else p.address
    ensures if p.Nil? || p.id == "" then p.Child(name).id == name
            else |p.Child(name).id| == |p.id| + 1 + |name| && p.Child(name).id[|p.id|] == '/'
                 && p.Child(name).id[..|p.id|] == p.id && p.Child(name).id[|p.id| + 1..] == name
  {
  }

  /** A child's ID under a named parent reads parent, kind and name, in this order. */
  lemma ChildIdReads(parent: Id, kind: string, name: string)
    requires parent != ""
    ensures ChildId(parent, kind, name) == parent + "/" + kind + "/" + name
  {
    assert parent + "/" + (kind + "/" + name) == parent + "/" + kind + "/" + name;
  }

  /** Children of one parent share an ID only if they share a name. */
  lemma ChildrenDiffer(p: Pid, a: string, b: string)
    ensures p.Child(a) == p.Child(b) <==> a == b
  {
    ChildNamed(p, a);
    ChildNamed(p, b);
  }

  /** A child's child is the descendant under the joined name. */
  lemma ChildComposes(p: Pid, a: string, b: string)
    requires a != ""
    ensures p.Child(a).Child(b) == p.Child(a + "/" + b)
  {
    if p.Pid? && p.id != "" {
      assert p.id + "/" + a + "/" + b == p.id + "/" + (a + "/" + b);
    }
  }
}
