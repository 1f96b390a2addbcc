/** The messages handed to the Kafka client for sending. */
module Records {
  import opened GoStrings

  datatype Header = Header(key: GoString, value: GoString)

  datatype Record = Record(topic: GoString, key: GoString, value: GoString, headers: seq<Header>)
}
