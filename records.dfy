/**
 * The progress record kept in the `Day` table, and the constants of the wall.
 */
module Records {

  /** A wall section is complete at this height (in feet). */
  const FullHeight: int := 30

  /** The single-thread simulator always produces this many days per profile. */
  const SimulatedDays: nat := 30

  /** A profile line may hold at most this many sections. */
  const MaxSections: nat := 2000

  /** Cubic yards of ice needed for one foot of one section. */
  const YardsIcePerFoot: nat := 195

  /** Gold paid per cubic yard of ice. */
  const GoldPerYardIce: nat := 1900

  /**
   * One row of the `Day` table: on day `dayNo`, profile `profileNo` had
   * `currentFeetDone` feet built that day and `totalFeetDone` feet built so far.
   * The primary key that the database assigns is not modelled.
   */
  datatype Day = Day(dayNo: nat, profileNo: nat, currentFeetDone: nat, totalFeetDone: nat)
}
