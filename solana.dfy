/** The runtime's value types that the counter program and the test harness
    share. */
module Solana {

  /** A 32-byte account or program address; only equality matters here. */
  datatype Pubkey = Pubkey(bytes: seq<bv8>)

  /** Rust `u64`. */
  const U64_MAX: int := 0xFFFF_FFFF_FFFF_FFFF
  type u64 = x: int | 0 <= x <= U64_MAX

  type Seed = seq<bv8>

  /** A deployed program: its id and the runtime's program-derived-address
      search (`find_program_address`, `PublicKey.findProgramAddressSync`).
      The search hashes its inputs; the model keeps only that it is a
      deterministic function of the seeds and the program id. */
  datatype Program = Program(id: Pubkey, findProgramAddress: (seq<Seed>, Pubkey) -> Pubkey)

  /** The address derived from `seeds` under the program's id. */
  function DeriveAddress(program: Program, seeds: seq<Seed>): Pubkey {
    program.findProgramAddress(seeds, program.id)
  }
}
