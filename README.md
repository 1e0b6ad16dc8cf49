# Ocelot kernel base class and dynamic-executive state, in Dafny

This project models two pieces of the Ocelot GPU emulator:

- `ir::Kernel`, the base class of an intermediate-representation kernel
  (module `Ir`, file `ir_kernel.dfy`). A kernel has a name, an
  instruction-set tag, a parameter list, a list of locals and a module
  reference. It also owns four analysis slots: the control-flow graph (CFG),
  the dominator tree, the postdominator tree and the dataflow graph (DFG).
  The class `Ir.Kernel` has one field per C++ member. `State()` returns all
  of them as one `KernelState` value. The spec functions `Constructed`,
  `CopiedFrom`, `WithDominatorTree` and `WithPostdominatorTree` say what each
  operation leaves behind. `Coherent` is the invariant these operations
  keep: a cached tree is the one built from the current CFG.
- The state of `executive::LLVMDynamicExecutive`, the scheduler for one
  processor (module `Executive`, file `executive.dfy`). It covers:
  - the `ThreadExitCode` encoding;
  - the `Warp` record and its invariant that every thread shares the warp's
    hyperblock entry id (`Warp.Valid`);
  - the per-CTA ready and waiting queues, modelled as maps from CTA id to a
    FIFO sequence of contexts;
  - the documented contracts of `addCta` and `execute`.

The CFG and the DFG are stand-in values whose contents nothing in the model
inspects. Each tree builder is a total function of the CFG; its body simply
records the graph the tree was built from. That body is a concrete stand-in
for the real analysis: no contract or proof depends on it, only on the
builder being a function of the CFG alone.
A pointer into the parameter vector is modelled as an index. A null pointer
is `None`. `wrappers.dfy` holds the `Option` type.

## Model

| member | source | states |
|---|---|---|
| `Ir.Constructed` | branches/ocelot-ptx-2.1/ocelot/ir/implementation/Kernel.cpp:22-28 | a new kernel has the given ISA; empty name, parameters and locals; no module, CFG, dominator tree, postdominator tree or DFG; and it is coherent |
| `Ir.Kernel.constructor` | branches/ocelot-ptx-2.1/ocelot/ir/implementation/Kernel.cpp:22-28 | the constructed object's state is `Constructed(isa)` |
| `Ir.CopiedFrom` | branches/ocelot-ptx-2.1/ocelot/ir/implementation/Kernel.cpp:37-50 | a copy has the source's name, ISA, parameters, locals and module, and an equal CFG; all three derived analyses are null; the copy is coherent |
| `Ir.Kernel.Copy` | branches/ocelot-ptx-2.1/ocelot/ir/implementation/Kernel.cpp:37-50 | copy construction requires a source CFG, which is dereferenced unconditionally, and yields `CopiedFrom(source)` |
| `Ir.Kernel.Assign` | branches/ocelot-ptx-2.1/ocelot/ir/implementation/Kernel.cpp:52-69 | self-assignment leaves every field unchanged; any other assignment yields exactly the state a copy would have |
| `Ir.FirstParameterNamed` | branches/ocelot-ptx-2.1/ocelot/ir/implementation/Kernel.cpp:71-91 | the result indexes a parameter with the given name, and no earlier parameter has that name; the result is null exactly when no parameter has the name |
| `Ir.Kernel.GetParameter` | branches/ocelot-ptx-2.1/ocelot/ir/implementation/Kernel.cpp:71-91 | the linear scan returns the first match in list order, or null; it changes nothing (both overloads) |
| `Ir.Kernel.Cfg` | branches/ocelot-ptx-2.1/ocelot/ir/implementation/Kernel.cpp:93-101 | requires the CFG slot to be populated and returns what it holds |
| `Ir.Kernel.Dfg` | branches/ocelot-ptx-2.1/ocelot/ir/implementation/Kernel.cpp:117-125 | requires the DFG slot to be populated and returns what it holds |
| `Ir.DominatorTreeOf` | branches/ocelot-ptx-2.1/ocelot/ir/implementation/Kernel.cpp:110-115 | a cached dominator tree is returned as is; with nothing cached the result is the tree built from the current CFG; in a coherent kernel the result is always the tree of the current CFG |
| `Ir.WithDominatorTree` | branches/ocelot-ptx-2.1/ocelot/ir/implementation/Kernel.cpp:110-115 | after the call the dominator-tree slot holds the returned tree, every other field is unchanged, and coherence is preserved |
| `Ir.Kernel.DomTree` | branches/ocelot-ptx-2.1/ocelot/ir/implementation/Kernel.cpp:110-115 | requires a CFG; builds and caches the tree on first use, otherwise returns the cached one; modifies only the dominator-tree slot |
| `Ir.DominatorTreeIdempotent` | branches/ocelot-ptx-2.1/ocelot/ir/implementation/Kernel.cpp:110-115 | a second `dom_tree` call returns the same tree and leaves the state as the first call left it |
| `Ir.PostdominatorTreeOf` | branches/ocelot-ptx-2.1/ocelot/ir/implementation/Kernel.cpp:103-108 | a cached postdominator tree is returned as is; with nothing cached the result is the tree built from the current CFG; in a coherent kernel the result is always the tree of the current CFG |
| `Ir.WithPostdominatorTree` | branches/ocelot-ptx-2.1/ocelot/ir/implementation/Kernel.cpp:103-108 | after the call the postdominator-tree slot holds the returned tree, every other field is unchanged, and coherence is preserved |
| `Ir.Kernel.PdomTree` | branches/ocelot-ptx-2.1/ocelot/ir/implementation/Kernel.cpp:103-108 | requires a CFG; builds and caches the tree on first use, otherwise returns the cached one; modifies only the postdominator-tree slot |
| `Ir.PostdominatorTreeIdempotent` | branches/ocelot-ptx-2.1/ocelot/ir/implementation/Kernel.cpp:103-108 | a second `pdom_tree` call returns the same tree and leaves the state as the first call left it |
| `Ir.CopyRebuildsDominatorTree` | branches/ocelot-ptx-2.1/ocelot/ir/implementation/Kernel.cpp:45-47 | after a copy, whatever trees the source had cached, both trees are rebuilt from the copied CFG |
| `Ir.DomTreeTwiceAfterCopy` | branches/ocelot-ptx-2.1/ocelot/ir/implementation/Kernel.cpp:110-115 | a client copies a kernel and calls `dom_tree` twice; both calls return the tree of the source's CFG |
| `Ir.Kernel.Executable` | branches/ocelot-ptx-2.1/ocelot/ir/implementation/Kernel.cpp:127-129 | the base kernel is never executable |
| `Executive.ExitCodeValue` | branches/ocelot-vector-ptx2.1/ocelot/executive/interface/LLVMDynamicExecutive.h:41-50 | every code is represented by an integer from 0 to 8 other than 2, and 8 represents exactly the invalid marker |
| `Executive.ExitCodeFromValue` | branches/ocelot-vector-ptx2.1/ocelot/executive/interface/LLVMDynamicExecutive.h:41-50 | an integer decodes to a code exactly when it is in 0..8 and is not 2; the decoded code encodes back to that integer |
| `Executive.ExitCodeRoundTrip` | branches/ocelot-vector-ptx2.1/ocelot/executive/interface/LLVMDynamicExecutive.h:41-50 | decoding the value of any exit code gives that code back |
| `Executive.ExitCodeValueInjective` | branches/ocelot-vector-ptx2.1/ocelot/executive/interface/LLVMDynamicExecutive.h:41-50 | distinct exit codes have distinct values |
| `Executive.InvalidFollowsExitOther` | branches/ocelot-vector-ptx2.1/ocelot/executive/interface/LLVMDynamicExecutive.h:43-49 | the invalid marker is one past `exit_other` (8); 2 denotes no code |
| `Executive.Warp.Valid` | branches/ocelot-vector-ptx2.1/ocelot/executive/interface/LLVMDynamicExecutive.h:73-85 | a warp is valid exactly when every thread in it has the warp's hyperblock entry id |
| `Executive.Warp.constructor` | branches/ocelot-vector-ptx2.1/ocelot/executive/interface/LLVMDynamicExecutive.h:77 | a new warp has entry id 0 and no threads, so it satisfies the same-entry-point invariant |
| `Executive.Warp.Size` | branches/ocelot-vector-ptx2.1/ocelot/executive/interface/LLVMDynamicExecutive.h:78-82 | a warp's size is the length of its ordered thread sequence |
| `Executive.QueuedCountRemove` | branches/ocelot-vector-ptx2.1/ocelot/executive/interface/LLVMDynamicExecutive.h:27-30 | the number of queued contexts is one CTA's queue length plus the count for all other CTAs, for any CTA |
| `Executive.QueuedCountUpdate` | branches/ocelot-vector-ptx2.1/ocelot/executive/interface/LLVMDynamicExecutive.h:120-124 | replacing one CTA's queue changes the total only by the change in that queue's length |
| `Executive.QueuedCountZero` | branches/ocelot-vector-ptx2.1/ocelot/executive/interface/LLVMDynamicExecutive.h:120-124 | no context is queued in total exactly when every CTA's queue is empty |
| `Executive.InitialContexts` | branches/ocelot-vector-ptx2.1/ocelot/executive/interface/LLVMDynamicExecutive.h:95-96 | the queue the model assumes `addCta` creates (the header shows no body): n contexts, thread i in position i, all at entry id 0 |
| `Executive.DynamicExecutive.constructor` | branches/ocelot-vector-ptx2.1/ocelot/executive/interface/LLVMDynamicExecutive.h:89-90 | a new executive records its kernel and processor and starts with empty ready and waiting maps |
| `Executive.DynamicExecutive.AddCta` | branches/ocelot-vector-ptx2.1/ocelot/executive/interface/LLVMDynamicExecutive.h:95-96 | adding a CTA puts its contexts in the ready map under its id; every other CTA's entry and the waiting map are unchanged; the queued total grows by the thread count |
| `Executive.DynamicExecutive.Terminated` | branches/ocelot-vector-ptx2.1/ocelot/executive/interface/LLVMDynamicExecutive.h:92-93 | the state `execute` returns in: no context remains in any ready or waiting queue, which holds exactly when the queued totals of both maps are zero |

## Left out

- `Kernel::write` and `operator<<`: these are stream output, and the base `write` is an unconditional assertion failure.
- The `Kernel` destructor and the `new`/`delete` of analysis objects: ownership is modelled by slots being reset or replaced, not by heap lifetimes.
- Internals of `ControlFlowGraph`, `DominatorTree`, `PostdominatorTree` and `DataflowGraph`: their code is not part of this model. They are opaque values, and the trees are built by functions of the CFG.
- How a subclass fills the CFG and DFG slots: no such code is in `Kernel.cpp`.
- Stale tree caches: the kernel never drops its cached trees when the CFG changes. Edits made through the mutable pointer that `cfg()` returns, or by a subclass replacing the CFG, leave the trees as they were. The model gives the same result: once `cfgSlot` is written after `DomTree()`, the next call returns the old tree. This is why `Coherent` is an invariant only of the operations modelled here, not of every reachable state.
- The bodies of `LLVMDynamicExecutive::execute`, `warpFormation`, `executeWarp`, `testBarriers` and `finishContext`, and `Metadata::toString`. The header declares them but has no bodies. Only the documented post-state of `execute` is modelled (`Terminated`). No warp-formation, barrier or exit-code reconciliation algorithm is modelled.
- `Executive.DynamicExecutive.constructor`: the constructor's body is not in the header. The model assumes it stores its arguments and that the two `std::map` members start empty, as default construction leaves them.
- `Executive.DynamicExecutive.AddCta`: its body is not in the header. The model takes two parameters: the already flattened CTA key, because the header does not say how a `Dim3` block id becomes the `unsigned int` key; and the CTA's thread count, because that comes from the kernel's launch dimensions. The model assumes the body queues one context per thread, in thread-index order, all at entry id 0, and leaves the waiting map alone. Adding a CTA that already has queues is a precondition: the header says nothing about that case.
- `LLVMContext`, `LLVMDynamicTranslationCache`, `LLVMDynamicKernel` and `HyperblockFormationPass`: foreign code. A context is a record of its thread index and its entry id, and the kernel is an opaque handle. The `Metadata` record's `const ir::PTXKernel*` is a separate handle type, `PtxKernelRef`; no modelled operation uses the record.
- Running several executives on different processors: that is concurrency, outside a sequential model.
- `unsigned int` CTA keys, `Metadata` sizes and `HyperblockId` are modelled as unbounded `nat`s, because no operation in the model does arithmetic on them that could wrap.
- The sample programs under `tests/` (FunctionPointers, SobelFilter) are display loops, image I/O and floating-point demo code, not engine logic.
