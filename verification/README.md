# pchar: bring-up and teardown of a pseudo character device module

This project models the load and unload entry points of the `pchar` Linux
kernel module (`assign01/pchar.c`) in Dafny, and proves that they use kernel
resources as a strict stack.

`pchar_init` brings up `devices` pseudo devices in six stages:

1. kmalloc the device table.
2. kfifo_alloc a 32-byte buffer per device.
3. alloc_chrdev_region for `devices` minors.
4. class_create.
5. device_create per device, with number `MKDEV(major, i)`.
6. cdev_init and cdev_add per device.

A failure at any stage, including partway through a per-device loop, jumps
into a chain of fall-through goto labels. That chain releases what was
acquired and returns the failing call's error. `pchar_exit` releases
everything in reverse.

Files:

- `kernel.dfy` (module `Kernel`): what the kernel hands out and takes back.
  - Device numbers `MkDev(major, minor)`.
  - The `Resource` kinds: the table, a buffer, the number region, the class,
    a device file, a cdev.
  - An `Oracle` that fixes the outcome of every kernel call bring-up can make.
- `ledger.dfy` (module `Ledger`): a generic acquire/release trace.
  - `Replay` runs a trace against a stack of held resources and fails on
    misuse: acquiring something already held, or releasing anything but the
    newest held resource.
  - `Acquired`/`Released` count a trace's resources as multisets.
  - `Mirror(s)` acquires `s` and then releases it newest first.
- `protocol.dfy` (module `Protocol`): the reference behaviour.
  - `Plan` is the order in which a full bring-up acquires resources.
  - `InitOutcome` says how far bring-up gets for a given oracle and what it
    returns.
  - `InitTrace` is the trace a correct bring-up issues: the acquired prefix of
    the plan, then, on failure, that prefix released newest first.
  - One lemma per failure stage spells that trace out in the source's own
    terms.
- `pchar.dfy` (module `Pchar`): `pchar_init` and `pchar_exit` as methods.
  - The goto labels become nested labelled blocks: `break L` lands on the code
    under label `L`, and each handler falls through into the next as in C.
  - `pchar_init`'s locals `i` and `devno` are shared by all its loops and
    labels. Each method takes and returns their values, so a rollback loop
    leaves `i` at -1 for the next handler, and the resets `i = devices` at
    lines 108 and 118 are needed to free the right resources.
  - Each per-device loop is a method named after the call it makes.
  - Stages 5-6 and their handlers (`CreateDevices`) and stages 3-4 with
    `class_create_failed` (`RegisterDevices`) are methods of their own. They
    are entered with the trace issued so far.
  - Every kernel call appends one event to the trace the methods return.

The methods are proved to issue exactly `InitTrace` and to return exactly
`InitOutcome(...).ret`. The Protocol lemmas then show what that trace does:

- On failure it releases precisely what it acquired, newest first, and ends
  holding nothing.
- On success it holds the whole plan, and unload releases the plan in exact
  reverse.

Three facts about the code that the model keeps:

- `pchar_init` does not check for `devices <= 0`. The model takes `devices`
  as a natural number and checks nothing.
- `assign02/pchar_ioctl.h` declares the FIFO_CLEAR, FIFO_INFO and
  FIFO_RESIZE commands, but no handler for them exists.
- The error returned is:
  - `-ENOMEM` when the table allocation fails;
  - the error code itself from kfifo_alloc, alloc_chrdev_region and cdev_add;
  - `-1` when class_create or device_create fails.

## Model

| member | source | states |
|---|---|---|
| Pchar.PcharInit | assign01/pchar.c:39-125 | For every oracle, returns the error of the first failing call (0 if none), and the trace it issues is the plan's acquired prefix, then on failure that prefix released newest first, with the shared index reset to the device count before the buffers are freed; on success the driver is live, device i with a MAX-byte buffer and number MKDEV(major, i) |
| Pchar.RegisterDevices | assign01/pchar.c:63-116 | Entered holding the table and every buffer: returns the first failing call's error, and on failure its own acquisitions are undone so that only the buffers and the table remain to be released; a failed region allocation issues no release at all and leaves the shared locals as they were; after any later failure devno is MKDEV(major, 0), and the shared index is -1 if the device stage ran |
| Pchar.CreateDevices | assign01/pchar.c:80-114 | Entered holding table, buffers, region and class: on failure unwinds cdevs, device files and the class so that only the region, buffers and table remain, the shared devno is back at MKDEV(major, 0) and the shared index at -1; on success every device carries number MKDEV(major, i) and the index is the device count |
| Pchar.AllocFifos | assign01/pchar.c:54-61 | Stops at the first device whose kfifo_alloc fails and returns that error, having acquired exactly buffers 0..i-1, each MAX bytes; returns 0 exactly when all buffers were allocated |
| Pchar.CreateDeviceFiles | assign01/pchar.c:80-88 | Stops at the first failing device_create with -1 and devno = MKDEV(major, i), having created exactly device files 0..i-1 |
| Pchar.AddCdevs | assign01/pchar.c:91-100 | Stops at the first failing cdev_add with its error, having added exactly cdevs 0..i-1 and recorded MKDEV(major, j) in each of those devices; the shared devno is left at MKDEV(major, i) |
| Pchar.DeleteCdevs | assign01/pchar.c:105-107 | Deletes cdevs count-1 down to 0, each under the number it was added with, leaving the loop index at -1 |
| Pchar.DestroyDeviceFiles | assign01/pchar.c:109-113 | Destroys device files count-1 down to 0 and leaves the shared devno at MKDEV(major, 0) whenever it destroyed any, and the loop index at -1 |
| Pchar.FreeFifos | assign01/pchar.c:119-121 | Frees buffers count-1 down to 0, leaving the loop index at -1 |
| Pchar.PcharExit | assign01/pchar.c:127-148 | On a live driver, releases the whole plan in exact reverse acquisition order, and replaying that against the plan leaves nothing held |
| Protocol.FirstFailure | assign01/pchar.c:54-61 | The index where a per-device loop stops: every earlier device succeeded and this one failed, or it is the device count when none failed |
| Protocol.FirstFailureFrom | assign01/pchar.c:54-61 | The same search, started from index i |
| Protocol.SuccessIffAllCallsSucceed | assign01/pchar.c:46-103 | Bring-up returns 0 if and only if kmalloc, every kfifo_alloc, alloc_chrdev_region, class_create, every device_create and every cdev_add succeed |
| Protocol.OutcomeShape | assign01/pchar.c:103 | Bring-up never acquires past the plan, and returns 0 exactly when it acquired all of it |
| Protocol.PlanDistinct | assign01/pchar.c:46-100 | No resource is acquired twice in a full bring-up |
| Protocol.PlanStages | assign01/pchar.c:46-100 | The plan is table, buffers 0..n-1, region, class, device files 0..n-1, cdevs 0..n-1 |
| Protocol.TableFailure | assign01/pchar.c:46-51 | A failed table allocation touches nothing else, releases nothing and returns -ENOMEM |
| Protocol.KfifoFailure | assign01/pchar.c:54-122 | kfifo_alloc failing at device k frees exactly buffers k-1 down to 0, then the table, and returns kfifo_alloc's error |
| Protocol.RegionFailure | assign01/pchar.c:63-122 | A failed alloc_chrdev_region frees all buffers n-1 down to 0, then the table, returns its error, and issues no release of a class, device file or cdev |
| Protocol.ClassFailure | assign01/pchar.c:72-122 | A failed class_create releases the region with the base MKDEV(major, 0) and count it was granted, then all buffers and the table, and returns -1 |
| Protocol.DeviceOutcome | assign01/pchar.c:80-87 | device_create failing at device k after all earlier calls succeeded makes bring-up return -1 after acquiring the plan up to device file k |
| Protocol.DeviceFailure | assign01/pchar.c:80-122 | device_create failing at device k destroys device files k-1 down to 0, then the class, the region, all buffers and the table, and returns -1 |
| Protocol.DeviceUnwind | assign01/pchar.c:109-122 | The plan's prefix up to device file k, and its reverse: device files, class, region, buffers, table |
| Protocol.CdevOutcome | assign01/pchar.c:91-99 | cdev_add failing at device k after all earlier calls succeeded makes bring-up return its error after acquiring the plan up to cdev k |
| Protocol.CdevFailure | assign01/pchar.c:91-122 | cdev_add failing at device k deletes cdevs k-1 down to 0, then destroys every device file n-1 down to 0, then the class, region, buffers and table, and returns cdev_add's error |
| Protocol.CdevFailureSparesFailedCdev | assign01/pchar.c:105-107 | When cdev_add fails at device k, no cdev numbered k or above is ever named in the trace |
| Protocol.CdevUnwind | assign01/pchar.c:105-122 | The plan's prefix up to cdev k, and its reverse: cdevs, every device file, class, region, buffers, table |
| Protocol.InitSuccess | assign01/pchar.c:91-103 | When every call succeeds, bring-up returns 0 having acquired the whole plan and released nothing |
| Protocol.FailedInitBalanced | assign01/pchar.c:105-124 | Every failed bring-up uses its resources as a stack (no release out of order, none twice) and releases exactly the multiset it acquired |
| Protocol.SucceededInitHoldsPlan | assign01/pchar.c:46-103 | A successful bring-up ends holding exactly the plan, in acquisition order |
| Protocol.TeardownOrder | assign01/pchar.c:127-148 | The reverse of the plan is cdevs n-1..0, device files n-1..0, class, region, buffers n-1..0, table |
| Protocol.TeardownBalanced | assign01/pchar.c:127-148 | Releasing the reversed plan from a full bring-up is a legal stack discipline that ends holding nothing |
| Protocol.LoadUnloadBalanced | assign01/pchar.c:39-148 | A successful load followed by an unload is one legal stack discipline that ends holding nothing |
| Ledger.ReplayConserves | assign01/pchar.c:105-124 | Over any legal trace, what was held plus what was acquired equals what is still held plus what was released |
| Ledger.MirrorConserves | assign01/pchar.c:105-124 | Acquiring distinct resources and releasing them newest first is legal, ends empty, and releases exactly what it acquired |
| Protocol.InitNeverHoldsTwice | assign01/pchar.c:46-124 | At every point of bring-up, successful or failed, the calls issued so far form a legal stack discipline that holds no resource twice |
| Ledger.ReplayKeepsDistinct | assign01/pchar.c:46-124 | A legal trace never holds a resource twice |

## Left out

- `pchar_open`, `pchar_close`, `pchar_read` and `pchar_write`. These are private-data bookkeeping and thin wrappers over kfifo copy routines whose code is not part of this model.
- `assign02/pchar_ioctl.h`. It only declares command numbers and a record; no handler exists.
- kfifo internals, including power-of-two rounding. A buffer is a resource tagged with its MAX size.
- What the kernel's class, device and cdev registries do internally. Each call is an acquire/release pair whose success comes from the oracle. cdev_init cannot fail and has no undo, so it issues no event.
- MKDEV/MAJOR bit packing. A device number is a (major, minor) pair.
- The kernel's choice of major number. The oracle supplies it.
- printk logging, `module_param`/`MODULE_*` declarations and `module_init`/`module_exit` wiring.
- Concurrency. The module has no locking, and the kernel runs load and unload on their own.
- A negative `devices` module parameter. It is taken to be a natural number, because the code does not check it and what the kernel calls would do with a negative count is outside this model.
- Pchar.PcharExit: requires a live driver. The kernel only calls module_exit after module_init returned 0, and unloading a module that never loaded is not modelled.
- The uninitialised shared devno: it starts as MKDEV(0, 0) in the model where the C variable is uninitialised. The proof shows that value is never used, because every path that reads devno first has it written by alloc_chrdev_region or a device loop.
