/**
 The kernel services the pchar module calls during bring-up and teardown,
 seen from outside: the resources they hand out, and an oracle that decides
 whether each call succeeds.
 */
module Kernel {

  /** The errno value the kernel reports for an out-of-memory failure. */
  const ENOMEM: int := 12

  /** Size in bytes of every device's kfifo. */
  const MAX: nat := 32

  /**
   A device number as built by MKDEV(major, minor). The kernel packs the two
   halves into one machine word; MAJOR and MINOR project them back out.
   */
  datatype DevNo = MkDev(major: nat, minor: nat)

  /**
   A resource the module holds, identified the way its release call names it:
   kfree takes the table, kfifo_free a device's buffer, unregister_chrdev_region
   a base number and a count, class_destroy the class, device_destroy a device
   number, and cdev_del a device's cdev (which remembers the number it was
   added under).
   */
  datatype Resource =
    | Table
    | Fifo(index: nat)
    | Region(base: DevNo, count: nat)
    | Class
    | DeviceFile(num: DevNo)
    | Cdev(index: nat, num: DevNo)

  /**
   The outcome of every kernel call bring-up can make. The int-valued calls
   return 0 on success and an error code otherwise; the two object-creating
   calls either return an object or an ERR_PTR value (IS_ERR).
   */
  datatype Oracle = Oracle(
    kmallocOk: bool,               // kmalloc of the device table
    kfifoRet: nat -> int,          // kfifo_alloc for device i
    regionRet: int,                // alloc_chrdev_region
    regionMajor: nat,              // the major number it grants on success
    classOk: bool,                 // class_create
    deviceOk: nat -> bool,         // device_create for device i
    cdevRet: nat -> int            // cdev_add for device i
  )
}
