/** Time stamps count seconds. */
module Clock {
  const DAY := 86400
}
