/**
 One page on one node: the owner it believes in, whether its copy is up to date, the bytes, the
 memory protection, the lock status and the state of the fault handler.
 */
module PageCell {
  import opened Nodes
  import opened PageLock

  type Bytes = seq<int>

  const PAGE_SIZE: nat := 4096

  /** A page that the system has just mapped. */
  function ZeroPage(): Bytes {
    seq(PAGE_SIZE, _ => 0)
  }

  datatype Prot = NoAccess | ReadOnly | ReadWrite

  /** The handler of SIGSEGV, between its call and its return. */
  datatype Fault = NoFault | Handling(write: bool)

  /** `owner` is the entry of `page_owners`, `upToDate` that of `page_state`; `syncing` is the
      negation of the flag of `page_cv`. `mode` is what `get_lock_status` answers, which is set
      when the lock is asked for; `granted` says that it was obtained. */
  datatype Cell = Cell(
    owner: NodeId,
    upToDate: bool,
    bytes: Bytes,
    prot: Prot,
    mode: Mode,
    granted: bool,
    fault: Fault,
    syncing: bool)

  /** The page at the node that creates the memory. */
  function Created(me: NodeId): Cell {
    Cell(me, true, ZeroPage(), ReadOnly, Unlocked, false, NoFault, false)
  }

  /** The page at a node that has just joined. */
  function Joined(owner: NodeId): Cell {
    Cell(owner, false, ZeroPage(), NoAccess, Unlocked, false, NoFault, false)
  }

  /** `memory_lock_reset`. */
  function Reset(mode: Mode): Prot {
    if mode == Unlocked then NoAccess else ReadOnly
  }

  /** `set_new_owner`. */
  function SetOwner(c: Cell, me: NodeId, owner: NodeId): Cell {
    c.(owner := owner, upToDate := owner == me)
  }

  /** The handler of INVALIDATION. */
  function Invalidate(c: Cell, me: NodeId, sender: NodeId): Cell {
    SetOwner(c.(prot := NoAccess), me, sender)
  }

  /** `update_page`, for RECV_PAGE and, when `leaving`, for RECV_PAGE_LEAVE. */
  function Update(c: Cell, owner: NodeId, sender: NodeId, bytes: Bytes, leaving: bool): Cell {
    if leaving && sender != c.owner then c
    else c.(owner := owner, bytes := bytes, prot := Reset(c.mode), upToDate := c.upToDate || c.syncing, syncing := false)
  }

  /** The page is copied into a message. */
  function Copied(c: Cell): Cell {
    c.(prot := Reset(c.mode))
  }

  /** What DT_LEAVE does to a page it names. */
  function Inherit(c: Cell, sender: NodeId, heir: NodeId): Cell {
    if c.owner == sender then c.(owner := heir) else c
  }

  /** A fault up to the point where the page is there or has been asked for. */
  function BeginFault(c: Cell, me: NodeId, write: bool): Cell {
    c.(fault := Handling(write), syncing := c.syncing || !(c.owner == me || c.upToDate))
  }

  /** The rest of the handler, without the broadcast. */
  function EndFault(c: Cell, me: NodeId): Cell
    requires c.fault.Handling?
  {
    if c.fault.write && c.mode == Writing then SetOwner(c.(fault := NoFault, prot := ReadWrite), me, me)
    else c.(fault := NoFault, prot := ReadOnly)
  }
}
