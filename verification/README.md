# libcontainerssh in Dafny

A Dafny 4.11 model of the parts of libcontainerssh that are hardest to get right, and proofs about it.
`dafny verify dfyconfig.toml` checks everything.

## What is modelled

**The agent forwarding protocol** (`agentprotocol/server.go`). Two endpoints multiplex connections over two
reliable FIFO pipes. `AgentConnection` is one end of one connection as a value, `AgentEndpoint` one
`ForwardCtx` against an arbitrary peer, `AgentSystem` two of them with their pipes. A run is any
interleaving of user calls and packet handling, and what the code does not do under one lock is more than one
step:

- `newConnection` registers the id under the map lock and writes NEW later (lines 490-503);
- `Close` sets the state under the connection's lock and writes CLOSE later;
- `handleSuccess` reads the state outside the connection's lock at line 275 and acts on it later;
- `handleNewConnection` registers, then looks at `stopped`, then waits until somebody takes the connection from
  the unbuffered channel (lines 353-361), and the handling of NO_MORE_CONNECTIONS looks at `stopped` before it
  closes that channel.

Closing the channel twice or under a pending send is a panic, and so is giving back a token that the wait group
does not have; nothing more happens at that side then.

`AgentPair` is the invariant of one connection over both ends and both pipes; `AgentTheorems` is what follows
for every run, and `AgentDetails` that the details of a connection arrive as they were given. `AgentPanics` is about every run of one endpoint that the code allows, careful or not. `AgentRace`,
`AgentRevival`, `AgentAbrupt` and `AgentHazards` say what happens in the runs that break the conditions below; most
of it comes from comparing two systems that differ in one end of one connection (`AgentTwin`, `AgentParting`).
`AgentForwardCtx` is the same code as objects that change in place, proved to follow the model and to keep its
accounting.

The theorems about two endpoints hold for every run in which

- only one side opens connections, one at a time, and no call names a connection before it is announced (the
  callers' lock does this, `internal/agentforward/agentForwardImpl.go` lines 352 and 391),
- `CloseImm` is called only on a connection that is closing. The timer in `Kill` does so but for one case: an
  incoming connection that is registered after `Kill` closed the others and not yet rejected, which is then
  CLOSED with nobody told (`AbruptIff` at the accepting side),
- `NoMoreConnections` is not called on a stopped endpoint, nor while a connection is being offered, nor while
  the handler is about to stop the endpoint itself,
- the id counter is below 2^64-1,
- no `Close`, `Accept`, `Reject` or `CloseImm` on a connection falls between the two steps of
  `handleSuccess` for it when it has read WAITINIT.

The results about progress also need that offered connections are taken and received bytes are read. What
happens otherwise, and exactly when:

| condition broken | what happens | exactly when |
|---|---|---|
| two openings at once | `OverlapLosesLock` | `AnnouncedInOrderIff` |
| `Close` before the announcement | `EarlyCloseLosesLock` | always, once the CLOSE is reached |
| `CloseImm` on a connection that is not closing | `AbruptCloseDisagrees` | `AbruptIff` |
| `CloseImm` inside `handleSuccess` | `ReleasedTwicePanics` | `ReleasedTwiceIff`, `WaitGroupIs`, `AbruptIff` |
| `Close` inside `handleSuccess` | `RaceDisagrees` | `RaceIff` |
| `NoMoreConnections` at the wrong time | `OfferPanics` | `StopPanicsIff`, `PanicIff` |
| offers not taken | `OfferBlocks` | always |
| the counter wraps | ids are used again | `FreshIdIff` |

**The service pool** (`service/`). `ServicePool` is the runner and its n services as interleaved steps over the
two token channels. `ServicePoolTurns` is the same pool under a schedule, which says what the services' goroutines do
before each step of the runner; the schedules are proved to be exactly the runs. `ServicePoolRun` is the pool object
with its loops, proved to end where the schedule leads, and `ServiceLifecycle` one service's life.

**Docker executions and container removal** (`internal/docker/docker_impl.go`). `DockerExec` interleaves
program creation, running, signalling and ending with the removal of the container; `DockerContainer` is the
same as objects, whose methods promise what every reachable state has: who holds a token, what can be signalled.

**Smaller components**: the printed remote address (`RemoteAddress`), GitHub scopes (`GithubScopes`), the
choice of a response type (`HttpAccept`), the process id in the Kubernetes output stream (`PidDemux`), metric
names and values (`MetricLabels`, `MetricCollector`, `ConnectionMetrics`).

## What the proofs found

- A `Close` that falls between the two steps of `handleSuccess` is undone: the opener may end STARTED
  against a CLOSED peer. If nothing more is called, the two sides end in disagreement exactly if the peer had not
  itself begun to close.
- A `CloseImm` at that moment is undone too, but its token is gone: when the connection is closed again the token is
  given back once more and the close callback runs once more. With no other connection open the process panics.
- `NoMoreConnections` while an incoming connection waits to be taken is a panic of the whole process; a connection
  that nobody takes holds up every packet behind it.
- Two overlapping `newConnection` calls may announce their ids in the wrong order; the peer drops one, and a CLOSE
  for it leaves the peer's connection map locked. So does a `Kill` between the two steps of `newConnection`. Only
  the callers' lock prevents both.
- `Reject` does not give the wait-group token back, so `WaitFinish` and `Kill` never return at an endpoint that
  has rejected a connection. `Kill` also hangs, before it starts its timer, on a connection whose reader does not
  take the bytes that the handler is writing to it.
- `Details` of a connection that the endpoint has opened itself is empty: `newConnection` does not set it.
- `createExec` refuses a program during shutdown and keeps the container locked; `remove` then waits forever.
  The branch of `signal` that returns with the execution locked is never reached.
- A pool that is run again keeps an unused startup token and its last error, so it may announce Running too
  early and return an old error. A service that leaves Running and comes back counts twice.
- `Wait` on a service that has ended returns with its mutex held.
- Parsing `:80` or `[:80` panics.
- `"; q=0.5"` in an Accept header, with the blank, is refused with 400, unlike section 5.3.1 of RFC 7231.
- With a terminal the pid is taken from the first four bytes although the comment says that two other bytes
  come first.
- A label name of the form `k="v",l` prints like the two labels `k` and `l`.

## Model

| member | source | states |
|---|---|---|
| AgentPair.PairBeginClose | agentprotocol/server.go:77-86 | the first half of `Close` keeps the invariant of a connection over both ends and both pipes: packet counts in flight, what each end knows of the other, bytes |
| AgentPair.PairFinishClose | agentprotocol/server.go:87-91 | the later send of CLOSE keeps that invariant |
| AgentPair.PairWrite | agentprotocol/server.go:39-75 | `Write` keeps it, in particular the conservation of bytes |
| AgentPair.PairAccept | agentprotocol/server.go:119-135 | `Accept` keeps it |
| AgentPair.PairReject | agentprotocol/server.go:137-153 | `Reject` keeps it |
| AgentPair.PairForce | agentprotocol/server.go:102-117 | `CloseImm` on a closing connection keeps it |
| AgentPair.PairData | agentprotocol/server.go:190-233 | handling DATA keeps it |
| AgentPair.PairClose | agentprotocol/server.go:235-258 | handling CLOSE, with its reply, keeps it |
| AgentPair.PairReadSuccess | agentprotocol/server.go:260-275 | what `handleSuccess` reads is WAITINIT, WAITCLOSE or CLOSED, never STARTED |
| AgentPair.PairApplySuccess | agentprotocol/server.go:275-288 | acting on what was read keeps the invariant if WAITINIT is still current |
| AgentPair.PairError | agentprotocol/server.go:290-314 | handling ERROR keeps it |
| AgentPair.OpeningSteps | agentprotocol/server.go:77-117 | what the opener may do before its peer has seen NEW keeps the invariant of an opening connection |
| AgentPair.OpeningDelivered | agentprotocol/server.go:316-362 | when NEW is handled the connection has both ends, whether it is registered or rejected at once |
| AgentPair.PairAgrees | agentprotocol/server.go:39-314 | with nothing in flight and no CLOSE owed both ends are in the same state, not half closed, with the same bytes if open |
| AgentPair.PairBytes | agentprotocol/server.go:39-75 | the bytes received are a prefix of those written, the rest is in flight while STARTED, and none is missing when CLOSE is next |
| AgentPair.PairProgress | agentprotocol/server.go:77-100 | an end in WAITCLOSE has its CLOSE or a reply on the way |
| AgentEndpoint.DoKeeps | agentprotocol/server.go:39-153 | every careful user call keeps the accounting of one endpoint: wait group, callbacks, channel, hand-over, ids |
| AgentEndpoint.ReceiveKeeps | agentprotocol/server.go:364-402 | every packet from any peer keeps it |
| AgentEndpoint.ResumeKeeps | agentprotocol/server.go:355-391 | so does the handler when it goes on after looking at `stopped` |
| AgentEndpoint.Accounting | agentprotocol/server.go:102-117 | in every careful run against any peer the wait group is the number of connections not CLOSED or rejected; nothing is released or called back twice; nothing panics; every incoming connection was handed over once and in order, or is being handed over, or came after the stop |
| AgentEndpoint.WaitFinishIff | agentprotocol/server.go:696-698 | the wait group is zero exactly if every connection is CLOSED and none was rejected here |
| AgentEndpoint.RejectionNeverFinishes | agentprotocol/server.go:137-153 | after a rejection the wait group stays above zero for the rest of every run |
| AgentEndpoint.FreshIdIff | agentprotocol/server.go:453-514 | a new id exceeds all ids in use exactly as long as the counter does not wrap |
| AgentEndpoint.LockLostIff | agentprotocol/server.go:235-245 | in careful use the map lock is lost exactly by a CLOSE for an unknown connection |
| AgentPanics.PanicIff | agentprotocol/server.go:102-391 | a run of the code panics exactly if it ends with `NoMoreConnections` on a stopped endpoint or under a pending offer, with NO_MORE_CONNECTIONS closing a channel that was closed in between, or with the end of a connection when the wait group is zero |
| AgentPanics.StopPanicsIff | agentprotocol/server.go:686-694 | `NoMoreConnections` leads to a panic, at once or when the handler goes on, exactly if stopped, under a pending offer, or while the handler stops the endpoint |
| AgentPanics.ReleasedTwiceIff | agentprotocol/server.go:102-288 | in every run of the code, against any peer, a connection is released twice, and its callback run twice, exactly if `CloseImm` ended it between the two steps of `handleSuccess` and it was ended again later; never three times |
| AgentPanics.WaitGroupIs | agentprotocol/server.go:102-117 | in every run of the code the wait group is the number of connections never released less those released twice, and below zero only if one was released twice |
| AgentEndpoint.StoppedStays | agentprotocol/server.go:364-402 | a stopped endpoint handles any packets without a panic |
| AgentEndpoint.AnnouncedInOrderIff | agentprotocol/server.go:333-353 | of ids announced one after the other all are let in exactly if they rise |
| AgentEndpoint.ContinueStep | agentprotocol/server.go:364-402 | one turn of the handler loop leaves the result of the whole loop as it was |
| AgentEndpoint.OnlyReplies | agentprotocol/server.go:364-402 | whatever arrives, handling it writes only SUCCESS and ERROR packets |
| AgentSystem.NextKeeps | agentprotocol/server.go:39-503 | every call, every delivery and every continuation in intended use keeps the invariant of both endpoints, all connections and both pipes |
| AgentSystem.HeadKnown | agentprotocol/server.go:190-362 | a packet about to be handled names a connection its receiver knows, or is a NEW with exactly the next id |
| AgentTheorems.QuiescentAgreement | agentprotocol/server.go:39-503 | in every reachable state with nothing in flight both sides have the same connections, their ends agree, and open ones have delivered every byte both ways |
| AgentTheorems.StartedWasAccepted | agentprotocol/server.go:260-288 | the opener is STARTED only if the peer accepted and did not reject |
| AgentTheorems.BytesConserved | agentprotocol/server.go:190-233 | bytes are neither lost, duplicated nor reordered in any reachable state |
| AgentTheorems.NoOrphans | agentprotocol/server.go:235-362 | every packet in flight names a connection known to its receiver or announced earlier in the same pipe; no lock is lost |
| AgentTheorems.HeadInOrder | agentprotocol/server.go:316-362 | no packet takes an unknown-connection or suspicious-id branch |
| AgentTheorems.ReceiveWeight | agentprotocol/server.go:190-362 | handling a packet uses up more of the measure than its reply adds |
| AgentTheorems.HandlingDecreases | agentprotocol/server.go:364-402 | every handling step, and every taking of an offer, decreases the measure |
| AgentTheorems.DueEnabled | agentprotocol/server.go:353-402 | while a packet waits there is a next step: handling it, unless the handler itself waits, and then going on or taking its offer |
| AgentTheorems.OfferBlocks | agentprotocol/server.go:361-361 | in every run of the code without a taker, an offer stays pending and no packet behind it is handled |
| AgentTheorems.ClosesComplete | agentprotocol/server.go:77-117 | without new calls and with offers taken, handling ends within the measure in any order, the ends then agree, and every connection that was closing is CLOSED at both |
| AgentTheorems.CloseInFlight | agentprotocol/server.go:77-100 | an end in WAITCLOSE has its CLOSE in its pipe, or a reply in the other |
| AgentTheorems.KillCompletes | agentprotocol/server.go:700-718 | after `Kill` has closed all connections of either side, as `StopAndClose` leaves them, and everything is handled, its wait group is the number of connections rejected there; zero for the opener |
| AgentTheorems.Isolation | agentprotocol/server.go:155-402 | an action on one connection changes no end and no packet of another |
| AgentDetails.DetailsArrive | agentprotocol/server.go:316-514 | in every careful run the i-th `newConnection` has id i, and protocol, addresses and ports that it was given are those with which its peer has connection i |
| AgentDetails.DetailsKept | agentprotocol/server.go:316-514 | every step keeps the details: in a NEW not yet written, in one in flight and at the acceptor they are those of the opener |
| AgentRace.RaceIff | agentprotocol/server.go:260-288 | from every state in which WAITINIT has been read, a `Close` at that moment and then any order of what finishes until nothing is left ends in agreement exactly if the acceptor had begun to close |
| AgentAbrupt.AbruptIff | agentprotocol/server.go:102-117 | from every state in order, at either side and announced or not, after `CloseImm` on an end in WAITINIT or STARTED and any order of what finishes until nothing is left, the sides agree exactly if the peer had begun to close, had rejected or is bound to reject, or `handleSuccess` was about to open the end again and the peer had written nothing; the wait group panics only in that last case with a peer that had begun to close |
| AgentHazards.RaceDisagrees | agentprotocol/server.go:260-288 | a run of the code that ends STARTED against CLOSED with nothing in flight |
| AgentHazards.ReleasedTwicePanics | agentprotocol/server.go:102-288 | a run in which `CloseImm` inside `handleSuccess`, and once more, panics with the connection released twice |
| AgentHazards.AbruptCloseDisagrees | agentprotocol/server.go:102-117 | a run in which `CloseImm` on an open connection leaves the peer STARTED |
| AgentHazards.OfferPanics | agentprotocol/server.go:355-361 | a run in which `NoMoreConnections` under a pending offer panics |
| AgentHazards.OverlapLosesLock | agentprotocol/server.go:490-503 | a run in which two openings at once make the acceptor lose its map lock |
| AgentHazards.EarlyCloseLosesLock | agentprotocol/server.go:490-503 | from every state in order, after a `Close` between registration and announcement, whatever is called and handled then, the CLOSE is still ahead of the acceptor or its map lock is lost, as long as the acceptor opens nothing; announcing first keeps the invariant |
| AgentHazards.OrphanClose | agentprotocol/server.go:235-245 | a CLOSE of a connection that the acceptor does not know loses its map lock |
| AgentForwardCtx.Connection.Write | agentprotocol/server.go:39-75 | waits in WAITINIT; sends all the bytes in one DATA in STARTED and returns their number; else sends nothing, closes the pipe and fails |
| AgentForwardCtx.Connection.Close | agentprotocol/server.go:77-100 | both halves of the model's `Close`; one CLOSE is sent exactly from WAITINIT and STARTED, and nothing else |
| AgentForwardCtx.Connection.CloseImm | agentprotocol/server.go:102-117 | shuts a connection that is not CLOSED and its pipe, runs its callback and gives its token back, and fails on one that is; the wait group stays the number of tokens held |
| AgentForwardCtx.Connection.Accept | agentprotocol/server.go:119-135 | succeeds exactly for an incoming connection in WAITINIT, and then the peer is told |
| AgentForwardCtx.Connection.Reject | agentprotocol/server.go:137-153 | succeeds exactly for an incoming connection in WAITINIT, tells the peer and keeps the token |
| AgentForwardCtx.ForwardCtx.RegisterConnection | agentprotocol/server.go:490-498 | registers the next id, which is not yet announced, with its callback and one token more; or fails on an id in use and keeps the map lock |
| AgentForwardCtx.ForwardCtx.NewConnection | agentprotocol/server.go:453-514 | registering and announcing without interruption: one NEW with the details that were given; fails exactly on an id in use; the details of the object itself stay empty |
| AgentForwardCtx.ForwardCtx.NoMoreConnections | agentprotocol/server.go:686-694 | stops the endpoint and tells the peer, or panics, exactly if stopped or offering |
| AgentForwardCtx.ForwardCtx.TakeOffer | agentprotocol/server.go:361-361 | hands over the connection that the handler waits to send, with the details it was announced with, and the handler can take the next packet, whatever it is, unless it has lost the map lock |
| AgentForwardCtx.ForwardCtx.HandleData | agentprotocol/server.go:190-233 | bytes reach the reader of the named object exactly in STARTED, and no other object changes |
| AgentForwardCtx.ForwardCtx.HandleClose | agentprotocol/server.go:235-258 | shuts the named object and answers by what it was before |
| AgentForwardCtx.ForwardCtx.HandleSuccess | agentprotocol/server.go:260-288 | without interruption: WAITINIT becomes STARTED, WAITCLOSE is over and gives its token back, else nothing changes |
| AgentForwardCtx.ForwardCtx.HandleError | agentprotocol/server.go:290-314 | shuts the named object at once, giving its token back if it had one |
| AgentForwardCtx.ForwardCtx.HandleNewConnection | agentprotocol/server.go:316-362 | a malformed, known or old id is ignored; exactly a new one on an endpoint that is not stopped is offered; on a stopped one it is rejected with one ERROR; the object has the details of the packet |
| AgentForwardCtx.ForwardCtx.HandlePacket | agentprotocol/server.go:364-402 | every kind of packet takes the objects where the model goes, keeps the accounting, and replaces no object |
| AgentForwardCtx.ForwardCtx.HandleBackend | agentprotocol/server.go:364-402 | the loop leaves the state, the replies and the unread packets of handling one by one; packets stay unread only behind an offer, a lost lock or a panic |
| AgentForwardCtx.ForwardCtx.WaitFinish | agentprotocol/server.go:696-698 | returns exactly if every connection is CLOSED and none was rejected here |
| AgentForwardCtx.ForwardCtx.CloseAll | agentprotocol/server.go:704-706 | calls `Close` once on every connection, in any order, and writes one CLOSE for each open one and nothing else; or gets no further than one whose lock the handler holds |
| AgentForwardCtx.ForwardCtx.StopAndClose | agentprotocol/server.go:700-706 | `Kill` up to its wait: the packets it writes, exactly; it leaves an endpoint that is stopped with every connection closing, unless it gets stuck |
| AgentForwardCtx.ForwardCtx.Kill | agentprotocol/server.go:700-718 | whatever arrives before its timer: it writes NO_MORE_CONNECTIONS exactly if the endpoint was not stopped, then one CLOSE for each open connection and no other, then replies only, and leaves every connection CLOSED; it panics exactly if it stops the endpoint under a pending offer, and else returns exactly if no connection was rejected here and none has an unread delivery |
| ServicePool.Completion | service/pool_impl.go:43-111 | in every run of every pool one stop token per service is accounted for, its send never blocks, the pool returns only after all services have ended, the last loop finds its tokens, and services are stopped at most once, and exactly once when the pool waits for the rest of them or has returned |
| ServicePool.ReadinessIff | service/pool_impl.go:64-93 | Running is announced only after every service reached it, in all runs with at most one change to Running each, exactly if no startup token was left over |
| ServicePool.Pigeonhole | service/pool_impl.go:137-142 | with at most one token per service, n tokens mean all services |
| ServicePool.ErrorPropagation | service/pool_impl.go:86-86 | the pool returns the error of a service that crashed if one did, else what was left over |
| ServicePool.FailureIff | service/pool_impl.go:150-154 | a service counts as failed exactly if it ended with that error |
| ServicePool.StopKept | service/pool_impl.go:119-179 | every step conserves stop tokens, and no end is taken for a repetition |
| ServicePool.ToldKept | service/pool_impl.go:95-179 | every step keeps that a stop token, a service that has ended and a runner that waits for the rest are there only after the services were told to stop |
| ServicePool.StartupKept | service/pool_impl.go:133-142 | every step keeps startup tokens bounded by the changes to Running, though some are dropped |
| ServicePool.ErrorKept | service/pool_impl.go:150-154 | every step keeps the last error that of a crashed service or the left-over one |
| ServicePool.RunAgain | service/pool_impl.go:43-58 | a pool that returned can start again, keeping its startup channel, its last error and the recorded states |
| ServicePool.LeftoverToken | service/pool_impl.go:67-78 | a new pool can return with its startup token unused |
| ServicePool.ReentryCountsTwice | service/pool_impl.go:133-142 | a service that re-enters Running makes the pool announce without the other |
| ServicePoolTurns.ReturnsIff | service/pool_impl.go:64-87 | after any schedule, if the runner looks at its channels a few times more, it returns exactly if all services have ended, whichever channel it prefers |
| ServicePoolTurns.EveryRun | service/pool_impl.go:43-156 | every run up to a step of the runner, however the goroutines interleave, is that of some schedule |
| ServicePoolTurns.DriveRun | service/pool_impl.go:43-156 | every schedule makes a run |
| ServicePoolTurns.WordsAre | service/pool_impl.go:89-111 | in every schedule the pool says Running once at most and then Stopping once at most, by where its runner has got to |
| ServicePoolTurns.RunningIsSound | service/pool_impl.go:64-93 | without a token left over, the pool of a schedule says Running only when every service has reached it, if each does so once at most |
| ServicePoolRun.Pool.OnServiceStateChange | service/pool_impl.go:119-156 | without interruption: records the state; a change to Running leaves a startup token; one to Stopping, and an end, stop the services; an end leaves its error and one stop token |
| ServicePoolRun.Pool.BeginCall | service/pool_impl.go:119-132 | exactly a repeated state is dropped, and the end of a service is never a repetition |
| ServicePoolRun.Pool.Others | service/pool_impl.go:119-179 | the parts of the hooks of any services in any order lead where the model's schedule does |
| ServicePoolRun.Pool.TriggerStop | service/pool_impl.go:158-179 | the first call, and only that, calls `Stop` once on every service |
| ServicePoolRun.Pool.SendStop | service/pool_impl.go:146-155 | whatever the other services have done, the send of the stop token finds room in the channel |
| ServicePoolRun.Pool.AwaitStartup | service/pool_impl.go:64-78 | ends with n startup tokens or one stop token taken, and waits only when its schedule is over |
| ServicePoolRun.Pool.ProcessRunning | service/pool_impl.go:89-111 | announces soundly, or stops all services; when it is done `Stop` has been called in this run exactly once on every service; knows how many tokens are missing |
| ServicePoolRun.Pool.AwaitStop | service/pool_impl.go:95-104 | waits for a stop token or for the context; when it is done `Stop` has been called exactly once on every service |
| ServicePoolRun.Pool.StopServices | service/pool_impl.go:99-109 | says Stopping and has every service told to stop exactly once in this run |
| ServicePoolRun.Pool.RunWithLifecycle | service/pool_impl.go:43-87 | ends where its schedule leads, says what the schedule says, and returns exactly if the schedule does; then all services have ended, no stop token is left, `Stop` was called exactly once on each, and the error is right; announces soundly |
| ServiceLifecycle.Lifecycle.Run | service/lifecycle_impl.go:83-101 | listeners and hooks hear Starting, what the service says, and one end, Stopped if it ends well and Crashed if it fails or panics, each twice and in order; a panic is kept as the last error but not returned |
| ServiceLifecycle.ListenersHearAll | service/lifecycle_impl.go:103-160 | the listeners hear every change once and in order |
| ServiceLifecycle.Lifecycle.Wait | service/lifecycle_impl.go:51-65 | returns the last error, with the mutex held exactly if the service has ended |
| ServiceLifecycle.Lifecycle.Stop | service/lifecycle_impl.go:71-81 | cancels only a starting or running service; loses the mutex exactly if the service ends before the wait |
| ServiceLifecycle.OneTokenPerRun | service/pool_impl.go:119-156 | whatever a service does and whatever was recorded before, one run yields exactly one stop token |
| DockerExec.NextKeeps | internal/docker/docker_impl.go:450-566 | every step keeps the wait group equal to the tokens held, and an id above one only while a token is held |
| DockerExec.RemovalSafe | internal/docker/docker_impl.go:450-470 | in every run, once `remove` has passed its wait no created program is being created, running or ending and none can be signalled, for good; the container's own program has no token and may still run and be signalled |
| DockerExec.SignalSafe | internal/docker/docker_impl.go:707-775 | a signal takes a token only above zero, and its shutdown branch is never reached |
| DockerExec.PidIff | internal/docker/docker_impl.go:935-1081 | in every run a program has an id v above one exactly if v was read when it was run and it has not begun to end since |
| DockerExec.HelperIff | internal/docker/docker_impl.go:707-775 | in every run a signal starts a helper, which takes a token, exactly if the id read when the program was run is above one and the program has not begun to end since |
| DockerExec.RefusalBlocksRemoval | internal/docker/docker_impl.go:514-532 | after a refusal before the removal the container is never removed, in any run |
| DockerExec.RemovalGoesOnIff | internal/docker/docker_impl.go:450-470 | after its wait `remove` can go on exactly if no program was refused |
| DockerContainer.Container.Attach | internal/docker/docker_impl.go:301-331 | the container's own program has id 1, no execution id and no token |
| DockerContainer.Container.Admit | internal/docker/docker_impl.go:514-532 | refuses exactly while shutting down, and then keeps the lock; else a new program holds one token more |
| DockerContainer.Container.CreateExec | internal/docker/docker_impl.go:514-566 | a refusal leaves the container locked; else the program has the execution id from the daemon and holds a token exactly if its creation succeeded |
| DockerContainer.Container.LockedCreateExec | internal/docker/docker_impl.go:534-566 | the program keeps its token exactly if it is created and attached, and then has the execution id from the daemon |
| DockerContainer.Container.Run | internal/docker/docker_impl.go:935-963 | the program has the id that was read, and keeps its token exactly if it could be read |
| DockerContainer.Container.BeginFinish | internal/docker/docker_impl.go:1079-1090 | ends signalling for good; the token is owed exactly the first time, and not for the container's own program |
| DockerContainer.Container.EndFinish | internal/docker/docker_impl.go:1086-1088 | this program's token is given back and no other, and the wait group still counts the holders and is not negative |
| DockerContainer.Container.Signal | internal/docker/docker_impl.go:707-775 | which outcome, exactly; a helper is started exactly for an id above one, for that id and with a token, when the program holds a token and the container is not shut down; that shutdown is never found here |
| DockerContainer.Container.BeginRemove | internal/docker/docker_impl.go:450-459 | only the first call goes on to wait; a later one waits for it and then has nothing to do |
| DockerContainer.Container.EndWait | internal/docker/docker_impl.go:460-460 | the wait is over exactly if no program holds a token |
| DockerContainer.Container.MarkRemoved | internal/docker/docker_impl.go:461-463 | when the container is marked the wait group is zero, no program holds a token and none but the container's own can be signalled |
| DockerContainer.Container.EndRemove | internal/docker/docker_impl.go:465-512 | when `remove` returns still no program holds a token |
| RemoteAddress.RoundTripIff | metadata/connection.go:45-80 | printing and parsing give the address back exactly for a port in range and a host that is not empty and has a colon if it starts with a bracket |
| RemoteAddress.RecordRoundTripIff | metadata/connection.go:20-80 | for any text of the IP that is not empty and has no lone bracket, the record comes back exactly for a port in range and an IP that its text parses to |
| RemoteAddress.PanicIff | metadata/connection.go:60-80 | parsing panics exactly on a valid port after an empty host or a lone bracket |
| RemoteAddress.ParseAtLastColon | metadata/connection.go:60-80 | the port is what follows the last colon |
| RemoteAddress.PrintedIs | metadata/connection.go:45-48 | the printed text: the host, in brackets exactly if it has a colon, a colon and the port |
| RemoteAddress.DecimalIs | metadata/connection.go:46-46 | the port is printed in decimal digits |
| RemoteAddress.Remote.UnmarshalText | metadata/connection.go:60-80 | sets the parsed IP and the port on success and neither otherwise |
| GithubScopes.GetScope | internal/auth/oauth2_github.go:181-208 | the configured scopes and the read scopes that are needed and missing |
| GithubScopes.RequestedIff | internal/auth/oauth2_github.go:181-208 | nothing configured is dropped, what the checks need is asked for, and nothing else is |
| GithubScopes.CheckGrantedScopes | internal/auth/oauth2_github_flow.go:28-67 | accepts exactly if every enforced scope is met by itself or by its part before the colon, and the organisation scope is there if needed |
| GithubScopes.AcceptsIff | internal/auth/oauth2_github_flow.go:28-67 | a grant passes exactly if every enforced scope is in it or has its part before the first colon in it, and, if an organisation is required, `org` or `read:org` is |
| GithubScopes.EchoAcceptedIff | internal/auth/oauth2_github_flow.go:28-67 | granting what was asked passes exactly if every enforced scope survives the commas: it has none, or its part before the colon is a piece between commas of some requested scope; in particular if no configured scope has a comma |
| GithubScopes.MetIff | internal/auth/oauth2_github_flow.go:28-67 | an enforced scope is met by what comes back exactly if it survives |
| GithubScopes.MoreIsAccepted | internal/auth/oauth2_github_flow.go:28-67 | more granted scopes never turn acceptance into refusal |
| GithubScopes.CommaRefused | internal/auth/oauth2_github_flow.go:28-67 | a scope with a comma is refused though granted as asked |
| HttpAccept.FindMarshaller | http/handler_impl.go:91-130 | answers with the earliest supported type of the greatest weight and its first marshaller; 400 exactly on a malformed entry, 406 exactly if no type is supported |
| HttpAccept.AnswerUnique | http/handler_impl.go:91-130 | the header determines the answer |
| HttpAccept.ReadAccept | http/handler_impl.go:91-117 | all types in order, each with the weight of its last occurrence, or a malformed entry |
| HttpAccept.EntryIff | http/handler_impl.go:101-116 | an entry is well formed exactly if it is a type alone, weighing 1, or a type, a semicolon, `q=` and a number, its weight |
| HttpAccept.TrimSpaceOf | http/handler_impl.go:101-101 | trimming takes off all blanks at both ends and nothing else |
| HttpAccept.BlankIff | http/handler_impl.go:101-101 | the blanks are exactly the white space of Unicode |
| HttpAccept.BlankAfterComma | http/handler_impl.go:91-117 | entries separated by a comma and a blank are read as without the blank |
| HttpAccept.StableSort | http/handler_impl.go:118-121 | a permutation by falling weight that keeps the order of equals |
| HttpAccept.SortedUnique | http/handler_impl.go:118-121 | every stable sort gives the same list |
| HttpAccept.BlankBeforeWeight | http/handler_impl.go:91-117 | a blank before the weight makes the entry malformed |
| PidDemux.StdoutProxyWriter.Write | internal/kubernetes/kubernetesExecutionImpl.go:220-248 | the pid is sent exactly once four bytes, or six with a terminal, are there; it is the first four in little-endian order, and what the backend gets is the rest of the stream, as long as it takes it; an error exactly if it does not; once the pid is read the count is what the backend took, before that all bytes count |
| PidDemux.DemuxIs | internal/kubernetes/kubernetesExecutionImpl.go:226-240 | the same of the function of the whole stream: nothing is sent or forwarded before the threshold, and then the pid of the first four bytes and all bytes after them |
| PidDemux.SameStream | internal/kubernetes/kubernetesExecutionImpl.go:220-248 | two ways to cut a stream into writes cannot be told apart |
| PidDemux.DemuxGrows | internal/kubernetes/kubernetesExecutionImpl.go:220-248 | at most one pid; pids and forwarded bytes only grow |
| PidDemux.DemuxLosesNothing | internal/kubernetes/kubernetesExecutionImpl.go:220-248 | pid and forwarded bytes determine the stream |
| PidDemux.TtyPidIff | internal/kubernetes/kubernetesExecutionImpl.go:226-236 | with two bytes before it the pid is right for one pid only |
| MetricLabels.CombinedNameIff | internal/metrics/collector.go:114-135 | with label names that do not contain `="`, two label sets print alike exactly if they are equal |
| MetricLabels.Collision | internal/metrics/collector.go:114-135 | otherwise any two labels print like a single one |
| MetricLabels.PrintName | internal/metrics/collector.go:114-135 | prints the sorted labels, whatever the order of the map |
| MetricLabels.CombinedNameIs | internal/metrics/collector.go:114-135 | the printed text: the name, then the labels in order of their names, quoted and escaped, with commas between them and braces around, if there are any |
| MetricLabels.LessIff | internal/metrics/collector.go:119-119 | that order: the first difference decides, by character code, and a proper prefix comes first |
| MetricLabels.EscapeIs | internal/metrics/collector.go:122-124 | a quote or a backslash in a value gets a backslash in front, and nothing else does |
| MetricLabels.ToMap | internal/metrics/collector.go:77-83 | the last label of a name wins |
| MetricCollector.SeparateIff | internal/metrics/collector_impl.go:147-172 | with such names, writing one label set's value leaves another's alone exactly if they differ |
| MetricCollector.Family.GetValueStruct | internal/metrics/collector_impl.go:147-164 | finds the value printed like these labels or adds a zero at the end of the list |
| MetricCollector.Family.Get | internal/metrics/collector_impl.go:166-168 | the value printed like these labels, or zero; with label names that do not contain `="`, that of this label set |
| MetricCollector.Family.Set | internal/metrics/collector_impl.go:170-172 | changes the value printed like these labels and no other; with such names the map from label sets to values changes at this one |
| MetricCollector.Family.GetMetric | internal/metrics/collector_impl.go:125-133 | every printed name once, in order of first use, with its value; the label sets are distinct and are those of the map |
| ConnectionMetrics.CounterIncrementBy | internal/metrics/countergeo.go:17-33 | adds at the labels with the country, and refuses a negative amount without a change |
| ConnectionMetrics.AddBy | internal/metrics/gaugegeo.go:17-45 | adds or subtracts at the labels with the country |
| ConnectionMetrics.ByCountryIs | internal/metrics/gaugegeo.go:17-30 | a metric of a country is printed with the single label `country` |
| ConnectionMetrics.MetricsHandler.OnNetworkConnection | internal/metricsintegration/handler.go:32-47 | an accepted connection is counted in both metrics, a refused one in neither |
| ConnectionMetrics.MetricsHandler.OnDisconnect | internal/metricsintegration/handler.go:114-122 | a connection is taken off once, however often it disconnects |
| ConnectionMetrics.MetricsHandler.GaugeConserves | internal/metricsintegration/handler.go:32-122 | per country, current connections are all connections less the ended ones, never negative |
| ConnectionMetrics.Conserved | internal/metricsintegration/handler.go:32-122 | connections opened are those still there and those ended |

## Left out

- The wire encoding of packets and its errors (`agentprotocol/Protocol.go`): pipes carry whole packets, never fail and never fill up.
- DATA is one step, which takes effect when its bytes have been read; `handleData` holds the connection's lock until then. A reader that stops reading holds up the endpoint; only AgentForwardCtx.ForwardCtx.Kill says so.
- Misuse of a Go WaitGroup other than a negative counter, and data races on the connection map, which `Kill` reads without its lock.
- AgentForwardCtx.ForwardCtx.NewConnection: registers and announces without interruption; RegisterConnection and AnnounceConnection are the two steps.
- AgentForwardCtx.ForwardCtx.NoMoreConnections: sets the flag, closes the channel and writes the packet in one step, also in AgentEndpoint.
- AgentForwardCtx.ForwardCtx.HandleSuccess: the object form runs without interruption; the interleaving with other calls is in AgentEndpoint.
- AgentForwardCtx.ForwardCtx.HandleNewConnection: the object form runs without interruption up to the wait; the interleaving is in AgentEndpoint.
- AgentForwardCtx.ForwardCtx.Kill: no other call is interleaved with its loops; AgentTheorems.KillCompletes says what any interleaving of handling leads to.
- Liveness of the pool's start-up and stop fan-out: dropped startup tokens and early `Stop` calls make it false in some interleavings. That the pool returns once its services have ended is ServicePoolTurns.ReturnsIff.
- The `running` flag of the pool and its panic on a second `Add` or run; services are assumed distinct.
- ServicePoolRun.Pool.OnServiceStateChange: one call is not interrupted by another; BeginCall, Continue and Others take its parts one by one.
- ServicePoolRun.Pool.TriggerStop: does not wait for the calls of `Stop` that it makes, which only allows more runs.
- ServiceLifecycle.Lifecycle.Stop: what the service does before the wait is a parameter.
- Docker: images, inspection, retries, streams and the reading of the id from the socket; what the daemon answers is a parameter, and its ids are not empty.
- RemoteAddress.RoundTripIff: is about texts of hosts; the parsing and printing of IP addresses are parameters of RecordRoundTripIff.
- HttpAccept.FindMarshaller: the parsing of a decimal weight is a parameter, and weights are real numbers, so NaN and infinities are not modelled.
- ConnectionMetrics.AddBy: amounts are real numbers; floating-point rounding is not modelled.
- ConnectionMetrics.CounterIncrementBy: amounts are real numbers; floating-point rounding is not modelled.
- MetricLabels.CombinedNameIff: for names that contain `="` only the ambiguity of MetricLabels.Collision is stated, not all of them.
- Metric values are per metric; the map from metric names to their values and the text output are not modelled.
- Authentication servers, configuration loading, the SSH server, audit logs, Kubernetes pods and the security layer: they pass data on to libraries and services that are not part of this repository, or check one value at a time, and have no state of their own that several calls share.
