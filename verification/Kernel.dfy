/** The part of the operating system that the shells see: a process's table of
    pipe descriptors, the pipes it has created, and the children it has forked.

    Pipes are numbered in the order of the `pipe()` calls that made them. Nothing
    is close-on-exec, so a child holds every pipe end that was open at its fork.
 */
module Kernel {

  datatype End = ReadEnd(pipe: nat) | WriteEnd(pipe: nat)

  /** What one of a child's standard streams is connected to: `Default` is the shell's own
      stream, `File("")` an `open` without a name, `Dangling` a descriptor that is not open. */
  datatype Port =
    | Default
    | Piped(end: End)
    | File(name: string)
    | Fifo(path: string)
    | Dangling

  datatype Child = Child(
    argv: seq<string>, stdin: Port, stdout: Port, stderr: Port,
    held: set<End>,   // the pipe ends inherited at the fork
    waited: bool)     // whether the shell called waitpid for this child

  datatype Proc = Proc(
    fds: map<int, End>,    // the pipe descriptors open in the shell
    std: set<int>,         // those of 0, 1 and 2 that are still the standard streams
    pipes: seq<int>,       // for every pipe ever created, the slot it was created for
    closed: seq<End>,      // every pipe end the shell closed, in order
    badCloses: nat,        // calls of close on something that was not open
    children: seq<Child>)

  const STANDARD := {0, 1, 2}

  const NEW_PROC := Proc(map[], STANDARD, [], [], 0, [])

  /** The kernel's choice of two descriptors for the n-th `pipe()` call, given the
      descriptors in use. An arbitrary function, so every run of the kernel is covered. */
  type Allocator = (nat, set<int>) -> (int, int)

  /** A new pipe gets two distinct unused numbers; a standard stream that was closed is unused. */
  ghost predicate Sound(pick: Allocator) {
    forall n: nat, used: set<int> ::
      var (r, w) := pick(n, used);
      0 <= r && 0 <= w && r != w && r !in used && w !in used
  }

  ghost function Above(used: set<int>): (m: int)
    ensures 0 <= m && forall x | x in used :: x < m
  {
    if !exists x: int :: x in used then 0
    else
      var x: int :| x in used;
      var m := Above(used - {x});
      assert forall y | y in used :: y == x || y in used - {x};
      if x < m then m else x + 1
  }

  /** There are such kernels. */
  lemma {:induction false} SomeSound()
    ensures exists pick: Allocator :: Sound(pick)
  {
    var pick: Allocator := (n, used) => (Above(used), Above(used) + 1);
    assert Sound(pick);
  }

  function InUse(p: Proc): set<int> {
    p.fds.Keys + p.std
  }

  function OpenPipe(pick: Allocator, p: Proc, slot: int): (Proc, int, int) {
    var (r, w) := pick(|p.pipes|, InUse(p));
    (p.(fds := p.fds[r := ReadEnd(|p.pipes|)][w := WriteEnd(|p.pipes|)], pipes := p.pipes + [slot]), r, w)
  }

  function CloseFd(p: Proc, fd: int): Proc {
    if fd in p.fds
    then p.(fds := p.fds - {fd}, closed := p.closed + [p.fds[fd]])
    else if fd in p.std then p.(std := p.std - {fd})
    else p.(badCloses := p.badCloses + 1)
  }

  function PortOf(p: Proc, fd: int): Port {
    if fd in p.fds then Piped(p.fds[fd]) else if fd in p.std then Default else Dangling
  }

  function EndsOf(fds: map<int, End>): set<End> {
    set fd | fd in fds :: fds[fd]
  }

  function Fork(p: Proc, argv: seq<string>, stdin: Port, stdout: Port, stderr: Port, waited: bool): Proc {
    p.(children := p.children + [Child(argv, stdin, stdout, stderr, EndsOf(p.fds), waited)])
  }
}
