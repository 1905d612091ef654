/** Types and constants shared by the kernel modules. */
module KernelTypes {

  type Task = nat

  // Tick counts are 32 bits wide.
  const M := 0x1_0000_0000
  const MAX_DELAY := 0xFFFF_FFFF
}
