/** The generic node of core/block.py. Its listener_update (process, then
    notify the result stream) is modelled by module Propagation; the concrete
    blocks are the classes of MathBlocks, Filters, Dsm and Multipole. */
module BlockCore {
  import opened StreamCore

  class Block {
    const blockName: string
    var result: Stream?

    /** Block(block_name='block'): no result stream yet. */
    constructor (blockName: string := "block")
      ensures this.blockName == blockName && result == null
    {
      this.blockName := blockName;
      result := null;
    }

    /** The stream property: the result stream. */
    function Output(): (s: Stream?)
      reads this
      ensures s == result
    {
      result
    }

    /** The default testpoints: none. */
    function Testpoints(): (tp: Streams?)
      ensures tp == null
    {
      null
    }
  }
}
