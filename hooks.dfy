/**
 * Model of RenderingPlugin/RenderingPlugin/Hooks.cpp: the installer that patches
 * function-pointer slots of the ID3D12Device vtable and the pass-through hooks.
 *
 * The vtable is an array of machine words (function addresses). `VirtualProtect`
 * is the oracle `protect`, which says for a page address whether the call succeeds.
 */
module Hooks {
  import opened Base

  const PageSize: nat := 4096
  const WordSize: nat := 8

  /** The page `Unprotect` hands to VirtualProtect: `addr` rounded down to 4 KiB. */
  function PageBase(addr: nat): (page: nat)
    ensures page % PageSize == 0
    ensures page <= addr < page + PageSize
  {
    (addr / PageSize) * PageSize
  }

  /** `Unprotect(addr)`: whether making the page of `addr` writable succeeded. */
  predicate Unprotect(addr: nat, protect: nat -> bool)
  {
    protect(PageBase(addr))
  }

  /** The vtable slot a byte offset designates. */
  function Slot(vtableOffset: nat): nat
  {
    vtableOffset / WordSize
  }

  /**
   * `ApplyHook(obj, vtableOffset, newFunction)`: reads the slot, and overwrites it with
   * `newFunction` only when its page could be unprotected. The old entry is returned
   * either way; nothing else in the vtable changes.
   */
  method ApplyHook(vtable: array<nat>, vtableAddress: nat, vtableOffset: nat, newFunction: nat,
                   protect: nat -> bool)
    returns (oldFunc: nat)
    requires vtableOffset % WordSize == 0 && Slot(vtableOffset) < vtable.Length
    modifies vtable
    ensures oldFunc == old(vtable[Slot(vtableOffset)])
    ensures vtable[Slot(vtableOffset)] ==
      if Unprotect(vtableAddress + vtableOffset, protect) then newFunction else oldFunc
    ensures forall j :: 0 <= j < vtable.Length && j != Slot(vtableOffset) ==> vtable[j] == old(vtable[j])
  {
    var slot := vtableOffset / WordSize;
    oldFunc := vtable[slot];
    if Unprotect(vtableAddress + vtableOffset, protect) {
      vtable[slot] := newFunction;
    }
  }

  /** The four device methods `StartD3D12Hooks` hooks. */
  datatype DeviceMethod =
    | CreateDescriptorHeap
    | CreateRootSignature
    | CreateComputePipelineState
    | CreateGraphicsPipelineState

  /** The ABI facts about the device vtable offsets: word aligned, in range, one slot each. */
  predicate OffsetsWellFormed(offsets: DeviceMethod -> nat, vtableLength: nat)
  {
    (forall m :: offsets(m) % WordSize == 0 && Slot(offsets(m)) < vtableLength)
    && (forall m, n :: m != n ==> Slot(offsets(m)) != Slot(offsets(n)))
  }

  /** The `Hooked_*` entry points live at distinct addresses. */
  predicate HooksDistinct(hookAddress: DeviceMethod -> nat)
  {
    forall m, n :: m != n ==> hookAddress(m) != hookAddress(n)
  }

  /** Which hook, if any, lives at address `fn`. */
  function HookAt(fn: nat, hookAddress: DeviceMethod -> nat): (r: Option<DeviceMethod>)
    ensures r.Some? ==> hookAddress(r.value) == fn
  {
    if hookAddress(CreateDescriptorHeap) == fn then Some(CreateDescriptorHeap)
    else if hookAddress(CreateRootSignature) == fn then Some(CreateRootSignature)
    else if hookAddress(CreateComputePipelineState) == fn then Some(CreateComputePipelineState)
    else if hookAddress(CreateGraphicsPipelineState) == fn then Some(CreateGraphicsPipelineState)
    else None
  }

  /** An address `HookAt` does not recognise is no hook's address. */
  lemma NotAHook(fn: nat, hookAddress: DeviceMethod -> nat, m: DeviceMethod)
    requires HookAt(fn, hookAddress).None?
    ensures hookAddress(m) != fn
  {
    match m
    case CreateDescriptorHeap =>
    case CreateRootSignature =>
    case CreateComputePipelineState =>
    case CreateGraphicsPipelineState =>
  }

  /** The four global `Orig*` pointers. */
  datatype Originals = Originals(descriptorHeap: nat, rootSignature: nat, computePipeline: nat, graphicsPipeline: nat)
  {
    function Get(m: DeviceMethod): nat
    {
      match m
      case CreateDescriptorHeap => descriptorHeap
      case CreateRootSignature => rootSignature
      case CreateComputePipelineState => computePipeline
      case CreateGraphicsPipelineState => graphicsPipeline
    }
  }

  /** Whether vtable slot `j` is one of the four device slots. */
  predicate IsDeviceSlot(offsets: DeviceMethod -> nat, j: nat)
  {
    j == Slot(offsets(CreateDescriptorHeap)) || j == Slot(offsets(CreateRootSignature))
    || j == Slot(offsets(CreateComputePipelineState)) || j == Slot(offsets(CreateGraphicsPipelineState))
  }

  /**
   * A call through function pointer `fn` with arguments `args`. A `Hooked_*` function
   * forwards its arguments unchanged to the stored `Orig*` pointer and returns its
   * result; any other address runs native code, given by the oracle `native`.
   * `fuel` bounds how many hooks a call may pass through; `None` means it never
   * reached native code within that bound.
   */
  function CallThrough<A, R>(fn: nat, hookAddress: DeviceMethod -> nat, orig: Originals,
                             native: (nat, A) -> R, args: A, fuel: nat): Option<R>
    decreases fuel
  {
    match HookAt(fn, hookAddress)
    case None => Some(native(fn, args))
    case Some(m) => if fuel == 0 then None else CallThrough(orig.Get(m), hookAddress, orig, native, args, fuel - 1)
  }

  /**
   * Hooking is transparent: once the slot of `m` holds either its hook (the write
   * succeeded) or its untouched original, and the hook's stored original is that
   * native entry, a call through the slot runs the original with the same arguments.
   */
  lemma InstalledSlotRunsOriginal<A, R>(before: nat, after: nat, m: DeviceMethod,
                                        hookAddress: DeviceMethod -> nat, orig: Originals,
                                        native: (nat, A) -> R, args: A, fuel: nat)
    requires HooksDistinct(hookAddress)
    requires orig.Get(m) == before && HookAt(before, hookAddress).None?
    requires after == hookAddress(m) || after == before
    requires fuel >= 1
    ensures CallThrough(after, hookAddress, orig, native, args, fuel) == Some(native(before, args))
  {
    if after == hookAddress(m) {
      assert HookAt(after, hookAddress) == Some(m);
    }
  }

  /**
   * What the `initialized` guard prevents: hooking an already hooked slot stores the
   * hook itself as its "original", and a call through it then never reaches native code.
   */
  lemma {:induction false} RehookedSlotNeverReturns<A, R>(m: DeviceMethod, hookAddress: DeviceMethod -> nat,
                                                          orig: Originals,
                                                          native: (nat, A) -> R, args: A, fuel: nat)
    requires HooksDistinct(hookAddress)
    requires orig.Get(m) == hookAddress(m)
    ensures CallThrough(hookAddress(m), hookAddress, orig, native, args, fuel) == None
    decreases fuel
  {
    assert HookAt(hookAddress(m), hookAddress) == Some(m);
    if fuel > 0 {
      RehookedSlotNeverReturns(m, hookAddress, orig, native, args, fuel - 1);
    }
  }

  /** What the slot of `m` holds after it was hooked, given its entry before. */
  function HookedSlot(m: DeviceMethod, vtableAddress: nat, offsets: DeviceMethod -> nat,
                      hookAddress: DeviceMethod -> nat, protect: nat -> bool, before: nat): nat
  {
    if Unprotect(vtableAddress + offsets(m), protect) then hookAddress(m) else before
  }

  /** The four `ApplyHook` calls of `StartD3D12Hooks`, in order. */
  method HookAll(vtable: array<nat>, vtableAddress: nat, offsets: DeviceMethod -> nat,
                 hookAddress: DeviceMethod -> nat, protect: nat -> bool) returns (orig: Originals)
    requires OffsetsWellFormed(offsets, vtable.Length)
    modifies vtable
    ensures forall m :: orig.Get(m) == old(vtable[Slot(offsets(m))])
    ensures forall m :: vtable[Slot(offsets(m))] ==
              HookedSlot(m, vtableAddress, offsets, hookAddress, protect, old(vtable[Slot(offsets(m))]))
    ensures forall j :: 0 <= j < vtable.Length && !IsDeviceSlot(offsets, j) ==> vtable[j] == old(vtable[j])
  {
    var o1 := ApplyHook(vtable, vtableAddress, offsets(CreateDescriptorHeap), hookAddress(CreateDescriptorHeap), protect);
    ghost var v1 := vtable[..];
    var o2 := ApplyHook(vtable, vtableAddress, offsets(CreateRootSignature), hookAddress(CreateRootSignature), protect);
    ghost var v2 := vtable[..];
    var o3 := ApplyHook(vtable, vtableAddress, offsets(CreateComputePipelineState), hookAddress(CreateComputePipelineState), protect);
    ghost var v3 := vtable[..];
    var o4 := ApplyHook(vtable, vtableAddress, offsets(CreateGraphicsPipelineState), hookAddress(CreateGraphicsPipelineState), protect);
    orig := Originals(o1, o2, o3, o4);
    forall m
      ensures orig.Get(m) == old(vtable[Slot(offsets(m))])
      ensures vtable[Slot(offsets(m))] ==
                HookedSlot(m, vtableAddress, offsets, hookAddress, protect, old(vtable[Slot(offsets(m))]))
    {
      match m
      case CreateDescriptorHeap =>
        assert vtable[Slot(offsets(m))] == v3[Slot(offsets(m))] == v2[Slot(offsets(m))] == v1[Slot(offsets(m))];
      case CreateRootSignature =>
        assert vtable[Slot(offsets(m))] == v3[Slot(offsets(m))] == v2[Slot(offsets(m))];
      case CreateComputePipelineState =>
        assert vtable[Slot(offsets(m))] == v3[Slot(offsets(m))];
      case CreateGraphicsPipelineState =>
    }
  }

  /**
   * The hook installer's global state: the function-local static `initialized` and the
   * global `Orig*` pointers (zero-initialised), plus the addresses of the `Hooked_*`
   * functions, fixed when the plugin is loaded.
   */
  class HookInstaller {
    var initialized: bool
    var orig: Originals
    const hookAddress: DeviceMethod -> nat

    constructor (hookAddress: DeviceMethod -> nat)
      ensures !initialized
      ensures orig == Originals(0, 0, 0, 0)
      ensures this.hookAddress == hookAddress
    {
      initialized := false;
      orig := Originals(0, 0, 0, 0);
      this.hookAddress := hookAddress;
    }

    /**
     * `StartD3D12Hooks(device, logger)`. The first call patches exactly the four device
     * slots and stores each slot's previous entry as its original; every later call
     * returns without touching the vtable or the originals.
     */
    method StartD3D12Hooks(vtable: array<nat>, vtableAddress: nat, offsets: DeviceMethod -> nat,
                           protect: nat -> bool)
      requires OffsetsWellFormed(offsets, vtable.Length)
      modifies this, vtable
      ensures initialized
      ensures old(initialized) ==> orig == old(orig) && vtable[..] == old(vtable[..])
      ensures !old(initialized) ==> forall m :: orig.Get(m) == old(vtable[Slot(offsets(m))])
      ensures !old(initialized) ==> forall m :: vtable[Slot(offsets(m))] == HookedSlot(m, vtableAddress, offsets, hookAddress, protect, old(vtable[Slot(offsets(m))]))
      ensures forall j :: 0 <= j < vtable.Length && !IsDeviceSlot(offsets, j) ==> vtable[j] == old(vtable[j])
    {
      if initialized {
        return;
      }
      orig := HookAll(vtable, vtableAddress, offsets, hookAddress, protect);
      initialized := true;
    }
  }
}
