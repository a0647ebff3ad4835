/**
 * The genesis document as the network configuration sees it. Only the two
 * lists it touches are named. Every other field of the document, and every
 * field of an allocation besides its address, is kept as uninterpreted JSON text.
 */
module GenesisDoc {

  /** One entry of the allocation table. */
  datatype Allocation = Allocation(avaxAddr: string, otherFields: map<string, string>)

  /** One initial validator. */
  datatype InitialStaker = InitialStaker(nodeId: string, rewardAddress: string, delegationFee: nat)

  datatype Genesis = Genesis(
    allocations: seq<Allocation>,
    initialStakers: seq<InitialStaker>,
    otherFields: map<string, string>)
}
