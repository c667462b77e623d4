/**
 * The restricted recursive value a packet section ($i, $o or $r) is written
 * in: strings, arrays and string-keyed objects only. There is no number,
 * boolean or null case, and equality is structural (a datatype).
 */
module PacketValues {

  datatype PacketValue =
    | String(s: string)
    | Array(items: seq<PacketValue>)
    | Object(fields: map<string, PacketValue>)
}
