/**
 * The base class of a kernel in the intermediate representation: a name, an
 * instruction-set tag, the kernel's parameters and locals, a reference to the
 * owning module, and four owned analysis slots (control-flow graph, dominator
 * tree, postdominator tree, dataflow graph), each of which may be empty.
 *
 * Pointers to owned analyses are modelled as optional values; a deep copy of
 * the control-flow graph is a copy of its value. A tree is determined by the
 * graph it is built from; the builders' bodies are stand-ins that nothing
 * below depends on beyond that.
 */
module Ir {
  import opened Wrappers

  /** Instruction-set tag of a kernel (an enumeration defined elsewhere). */
  datatype Architecture = Architecture(code: nat)

  /** A kernel parameter; everything but its name is opaque here. */
  datatype Parameter = Parameter(name: string, attributes: nat)

  /** A local variable declaration; opaque here. */
  datatype Local = Local(name: string, attributes: nat)

  /** Reference to the module that owns a kernel. */
  datatype ModuleRef = ModuleRef(id: nat)

  /** A control-flow graph, treated as an opaque value. */
  datatype ControlFlowGraph = ControlFlowGraph(contents: seq<nat>)

  /** A dataflow graph, treated as an opaque value. */
  datatype DataflowGraph = DataflowGraph(contents: seq<nat>)

  /** A dominator tree; it records the graph it was built from. */
  datatype DominatorTree = DominatorTree(graph: ControlFlowGraph)

  /** A postdominator tree; it records the graph it was built from. */
  datatype PostdominatorTree = PostdominatorTree(graph: ControlFlowGraph)

  /** The dominator-tree builder, a function of the graph alone. */
  function BuildDominatorTree(g: ControlFlowGraph): DominatorTree
  {
    DominatorTree(g)
  }

  /** The postdominator-tree builder, a function of the graph alone. */
  function BuildPostdominatorTree(g: ControlFlowGraph): PostdominatorTree
  {
    PostdominatorTree(g)
  }

  /** A snapshot of every field of a kernel. */
  datatype KernelState = KernelState(
    name: string,
    isa: Architecture,
    parameters: seq<Parameter>,
    locals: seq<Local>,
    owner: Option<ModuleRef>,
    cfg: Option<ControlFlowGraph>,
    domTree: Option<DominatorTree>,
    pdomTree: Option<PostdominatorTree>,
    dfg: Option<DataflowGraph>)

  /**
   * The derived caches agree with the graph: a cached (post)dominator tree is
   * the one the builder produces from the current control-flow graph.
   */
  predicate Coherent(s: KernelState)
  {
    && (s.domTree.Some? ==> s.cfg.Some? && s.domTree.value == BuildDominatorTree(s.cfg.value))
    && (s.pdomTree.Some? ==> s.cfg.Some? && s.pdomTree.value == BuildPostdominatorTree(s.cfg.value))
  }

  /** A kernel freshly constructed for instruction set `isa`. */
  function Constructed(isa: Architecture): (s: KernelState)
    ensures s.isa == isa && s.name == [] && s.parameters == [] && s.locals == []
    ensures s.owner.None? && s.cfg.None? && s.domTree.None? && s.pdomTree.None? && s.dfg.None?
    ensures Coherent(s)
  {
    KernelState([], isa, [], [], None, None, None, None, None)
  }

  /**
   * The state a copy of `src` has: every plain field and the control-flow graph
   * are copied, every analysis derived from the graph starts out empty.
   */
  function CopiedFrom(src: KernelState): (s: KernelState)
    requires src.cfg.Some?
    ensures s.name == src.name && s.isa == src.isa && s.owner == src.owner
    ensures s.parameters == src.parameters && s.locals == src.locals
    ensures s.cfg == src.cfg
    ensures s.domTree.None? && s.pdomTree.None? && s.dfg.None?
    ensures Coherent(s)
  {
    src.(domTree := None, pdomTree := None, dfg := None)
  }

  /**
   * Index of the first parameter named `name`, or None when no parameter has
   * that name.
   */
  function FirstParameterNamed(ps: seq<Parameter>, name: string): (r: Option<nat>)
    ensures r.Some? ==> r.value < |ps| && ps[r.value].name == name
    ensures r.Some? ==> forall j :: 0 <= j < r.value ==> ps[j].name != name
    ensures r.None? <==> forall j :: 0 <= j < |ps| ==> ps[j].name != name
  {
    if ps == [] then None
    else if ps[0].name == name then Some(0)
    else
      match FirstParameterNamed(ps[1..], name)
      case None => None
      case Some(i) => Some(i + 1)
  }

  /** The dominator tree a call to `dom_tree` returns in state `s`. */
  function DominatorTreeOf(s: KernelState): (t: DominatorTree)
    requires s.cfg.Some?
    ensures s.domTree.Some? ==> t == s.domTree.value
    ensures s.domTree.None? ==> t == BuildDominatorTree(s.cfg.value)
    ensures Coherent(s) ==> t == BuildDominatorTree(s.cfg.value)
  {
    if s.domTree.Some? then s.domTree.value else BuildDominatorTree(s.cfg.value)
  }

  /** The state after a call to `dom_tree` in state `s`: the tree is cached. */
  function WithDominatorTree(s: KernelState): (r: KernelState)
    requires s.cfg.Some?
    ensures r.domTree == Some(DominatorTreeOf(s))
    ensures r.(domTree := s.domTree) == s
    ensures Coherent(s) ==> Coherent(r)
  {
    s.(domTree := Some(DominatorTreeOf(s)))
  }

  /** The postdominator tree a call to `pdom_tree` returns in state `s`. */
  function PostdominatorTreeOf(s: KernelState): (t: PostdominatorTree)
    requires s.cfg.Some?
    ensures s.pdomTree.Some? ==> t == s.pdomTree.value
    ensures s.pdomTree.None? ==> t == BuildPostdominatorTree(s.cfg.value)
    ensures Coherent(s) ==> t == BuildPostdominatorTree(s.cfg.value)
  {
    if s.pdomTree.Some? then s.pdomTree.value else BuildPostdominatorTree(s.cfg.value)
  }

  /** The state after a call to `pdom_tree` in state `s`: the tree is cached. */
  function WithPostdominatorTree(s: KernelState): (r: KernelState)
    requires s.cfg.Some?
    ensures r.pdomTree == Some(PostdominatorTreeOf(s))
    ensures r.(pdomTree := s.pdomTree) == s
    ensures Coherent(s) ==> Coherent(r)
  {
    s.(pdomTree := Some(PostdominatorTreeOf(s)))
  }

  /**
   * Calling `dom_tree` a second time returns the same tree and changes
   * nothing further.
   */
  lemma DominatorTreeIdempotent(s: KernelState)
    requires s.cfg.Some?
    ensures WithDominatorTree(s).cfg.Some?
    ensures DominatorTreeOf(WithDominatorTree(s)) == DominatorTreeOf(s)
    ensures WithDominatorTree(WithDominatorTree(s)) == WithDominatorTree(s)
  {
  }

  /**
   * Calling `pdom_tree` a second time returns the same tree and changes
   * nothing further.
   */
  lemma PostdominatorTreeIdempotent(s: KernelState)
    requires s.cfg.Some?
    ensures WithPostdominatorTree(s).cfg.Some?
    ensures PostdominatorTreeOf(WithPostdominatorTree(s)) == PostdominatorTreeOf(s)
    ensures WithPostdominatorTree(WithPostdominatorTree(s)) == WithPostdominatorTree(s)
  {
  }

  /**
   * Copying forgets every cached analysis: a kernel that is copied and then
   * asked for its dominator tree gets the tree of the copied graph, whatever
   * tree the source had cached.
   */
  lemma CopyRebuildsDominatorTree(src: KernelState)
    requires src.cfg.Some?
    ensures CopiedFrom(src).cfg.Some?
    ensures DominatorTreeOf(CopiedFrom(src)) == BuildDominatorTree(src.cfg.value)
    ensures PostdominatorTreeOf(CopiedFrom(src)) == BuildPostdominatorTree(src.cfg.value)
  {
  }

  /** The intermediate-representation kernel base class. */
  class Kernel {
    var name: string
    var isa: Architecture
    var parameters: seq<Parameter>
    var locals: seq<Local>
    var owner: Option<ModuleRef>
    var cfgSlot: Option<ControlFlowGraph>
    var domTreeSlot: Option<DominatorTree>
    var pdomTreeSlot: Option<PostdominatorTree>
    var dfgSlot: Option<DataflowGraph>

    /** Every field, as one value. */
    function State(): KernelState
      reads this
    {
      KernelState(name, isa, parameters, locals, owner, cfgSlot, domTreeSlot, pdomTreeSlot, dfgSlot)
    }

    /** A kernel for instruction set `isa` with no analyses and no module. */
    constructor (isa: Architecture)
      ensures State() == Constructed(isa)
    {
      this.isa := isa;
      name, parameters, locals := [], [], [];
      cfgSlot, domTreeSlot, pdomTreeSlot, dfgSlot := None, None, None, None;
      owner := None;
    }

    /** Copy construction: deep-copies the graph and drops derived analyses. */
    constructor Copy(kernel: Kernel)
      requires kernel.cfgSlot.Some?
      ensures State() == CopiedFrom(kernel.State())
    {
      name := kernel.name;
      isa := kernel.isa;
      parameters := kernel.parameters;
      locals := kernel.locals;
      cfgSlot, domTreeSlot, pdomTreeSlot, dfgSlot := None, None, None, None;
      cfgSlot := Some(kernel.cfgSlot.value);
      owner := kernel.owner;
    }

    /**
     * Assignment: a no-op when `kernel` is this very object, otherwise the
     * same state a copy would have.
     */
    method Assign(kernel: Kernel)
      requires kernel == this || kernel.cfgSlot.Some?
      modifies this
      ensures kernel == this ==> State() == old(State())
      ensures kernel != this ==> State() == CopiedFrom(old(kernel.State()))
    {
      if kernel == this {
        return;
      }
      name := kernel.name;
      isa := kernel.isa;
      parameters := kernel.parameters;
      locals := kernel.locals;
      cfgSlot, domTreeSlot, pdomTreeSlot, dfgSlot := None, None, None, None;
      cfgSlot := Some(kernel.cfgSlot.value);
      owner := kernel.owner;
    }

    /**
     * Linear search for a parameter by name: the index of the first match in
     * list order, None when there is none. Models both the mutable and the
     * const overload, which differ only in the constness of the result.
     */
    method GetParameter(name: string) returns (r: Option<nat>)
      ensures r == FirstParameterNamed(parameters, name)
    {
      var i := 0;
      while i < |parameters|
        invariant 0 <= i <= |parameters|
        invariant forall j :: 0 <= j < i ==> parameters[j].name != name
      {
        if parameters[i].name == name {
          return Some(i);
        }
        i := i + 1;
      }
      return None;
    }

    /** The control-flow graph; it must have been created. */
    function Cfg(): (g: ControlFlowGraph)
      reads this
      requires cfgSlot.Some?
      ensures cfgSlot == Some(g)
    {
      cfgSlot.value
    }

    /** The dataflow graph; it must have been created. */
    function Dfg(): (g: DataflowGraph)
      reads this
      requires dfgSlot.Some?
      ensures dfgSlot == Some(g)
    {
      dfgSlot.value
    }

    /**
     * The dominator tree, built from the control-flow graph on first use and
     * cached; later calls return the cached tree. Only the dominator-tree slot
     * changes.
     */
    method DomTree() returns (t: DominatorTree)
      requires cfgSlot.Some?
      modifies this`domTreeSlot
      ensures t == DominatorTreeOf(old(State()))
      ensures State() == WithDominatorTree(old(State()))
    {
      if domTreeSlot.Some? {
        return domTreeSlot.value;
      }
      domTreeSlot := Some(BuildDominatorTree(cfgSlot.value));
      t := domTreeSlot.value;
    }

    /**
     * The postdominator tree, built from the control-flow graph on first use
     * and cached; later calls return the cached tree. Only the
     * postdominator-tree slot changes.
     */
    method PdomTree() returns (t: PostdominatorTree)
      requires cfgSlot.Some?
      modifies this`pdomTreeSlot
      ensures t == PostdominatorTreeOf(old(State()))
      ensures State() == WithPostdominatorTree(old(State()))
    {
      if pdomTreeSlot.Some? {
        return pdomTreeSlot.value;
      }
      pdomTreeSlot := Some(BuildPostdominatorTree(cfgSlot.value));
      t := pdomTreeSlot.value;
    }

    /** The base kernel is never executable. */
    function Executable(): (b: bool)
      ensures !b
    {
      false
    }
  }

  /**
   * A client of the class: two calls to `dom_tree` return the same tree, and
   * on a freshly copied kernel that tree is the one built from the copied graph.
   */
  method DomTreeTwiceAfterCopy(src: Kernel) returns (k: Kernel, t1: DominatorTree, t2: DominatorTree)
    requires src.cfgSlot.Some?
    ensures t1 == t2 == BuildDominatorTree(src.cfgSlot.value)
    ensures k.domTreeSlot == Some(t1) && k.cfgSlot == src.cfgSlot
  {
    k := new Kernel.Copy(src);
    t1 := k.DomTree();
    t2 := k.DomTree();
  }
}
